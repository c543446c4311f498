/** `snapshot` and `bind_set`: the USERD blocks and rings of every channel of an
    owned group, bound together. */
module BoundSets {
  import opened Results
  import opened EventLog
  import opened Hardware
  import opened Kernel
  import opened UserdMapping
  import opened MappingSoundness
  import opened GpfifoBinding

  function BindUserds(events: seq<Event>, identity: Identity, channels: seq<Channel>,
                      memories: seq<MemoryRecord>, vmas: seq<Vma>): (r: Result<seq<UserdBinding>>)
    ensures r.Ok? ==> |r.value| == |channels|
  {
    if channels == [] then Ok([])
    else
      var front :- BindUserds(events, identity, channels[..|channels| - 1], memories, vmas);
      var last :- ResolveChannel(events, identity, channels[|channels| - 1], memories, vmas);
      Ok(front + [last])
  }

  predicate AllResolved(events: seq<Event>, identity: Identity, channels: seq<Channel>, memories: seq<MemoryRecord>,
                        vmas: seq<Vma>, userds: seq<UserdBinding>) {
    && |userds| == |channels|
    && forall i :: 0 <= i < |channels| ==> ResolveChannel(events, identity, channels[i], memories, vmas) == Ok(userds[i])
  }

  /** The loop over the members gives the resolved block of each, or stops. */
  lemma {:induction false} UserdsExactly(events: seq<Event>, identity: Identity, channels: seq<Channel>,
                                         memories: seq<MemoryRecord>, vmas: seq<Vma>, userds: seq<UserdBinding>)
    ensures BindUserds(events, identity, channels, memories, vmas) == Ok(userds)
       <==> AllResolved(events, identity, channels, memories, vmas, userds)
  {
    hide ResolveChannel;
    if channels != [] {
      var n := |channels| - 1;
      if BindUserds(events, identity, channels, memories, vmas) == Ok(userds) {
        UserdsExactly(events, identity, channels[..n], memories, vmas, userds[..n]);
        assert userds == userds[..n] + [userds[n]];
      }
      if AllResolved(events, identity, channels, memories, vmas, userds) {
        UserdsExactly(events, identity, channels[..n], memories, vmas, userds[..n]);
        assert userds == userds[..n] + [userds[n]];
      }
    }
  }

  function Addresses(userds: seq<UserdBinding>): (r: set<int>)
    ensures forall a :: a in r <==> exists i :: 0 <= i < |userds| && userds[i].userdCpuAddress == a
    ensures |r| <= |userds|
  {
    if userds == [] then {}
    else
      var front := userds[..|userds| - 1];
      assert forall i :: 0 <= i < |front| ==> front[i] == userds[i];
      Addresses(front) + {userds[|userds| - 1].userdCpuAddress}
  }

  function Snapshot(events: seq<Event>, identity: Identity, channels: seq<Channel>,
                    memories: seq<MemoryRecord>, vmas: seq<Vma>): Result<seq<UserdBinding>>
  {
    var bindings :- BindUserds(events, identity, channels, memories, vmas);
    :- Need(bindings != [], "empty_group");
    :- Need(|Addresses(bindings)| == |bindings|, "channel_userd_regions_alias");
    Ok(bindings)
  }

  function BindRings(events: seq<Event>, identity: Identity, channels: seq<Channel>,
                     userds: seq<UserdBinding>, vmas: seq<Vma>): (r: Result<seq<RingBinding>>)
    requires |channels| == |userds|
    ensures r.Ok? ==> |r.value| == |channels|
  {
    if channels == [] then Ok([])
    else
      var n := |channels| - 1;
      var front :- BindRings(events, identity, channels[..n], userds[..n], vmas);
      var last :- ResolveRing(events, identity, channels[n].handle, userds[n], vmas);
      Ok(front + [last])
  }

  predicate AllRings(events: seq<Event>, identity: Identity, channels: seq<Channel>, userds: seq<UserdBinding>,
                     vmas: seq<Vma>, rings: seq<RingBinding>)
    requires |channels| == |userds|
  {
    && |rings| == |channels|
    && forall i :: 0 <= i < |channels| ==>
         ResolveRing(events, identity, channels[i].handle, userds[i], vmas) == Ok(rings[i])
  }

  lemma {:induction false} RingsExactly(events: seq<Event>, identity: Identity, channels: seq<Channel>,
                                        userds: seq<UserdBinding>, vmas: seq<Vma>, rings: seq<RingBinding>)
    requires |channels| == |userds|
    ensures BindRings(events, identity, channels, userds, vmas) == Ok(rings)
       <==> AllRings(events, identity, channels, userds, vmas, rings)
  {
    hide ResolveRing;
    if channels != [] {
      var n := |channels| - 1;
      if BindRings(events, identity, channels, userds, vmas) == Ok(rings) {
        RingsExactly(events, identity, channels[..n], userds[..n], vmas, rings[..n]);
        assert rings == rings[..n] + [rings[n]];
      }
      if AllRings(events, identity, channels, userds, vmas, rings) {
        RingsExactly(events, identity, channels[..n], userds[..n], vmas, rings[..n]);
        assert rings == rings[..n] + [rings[n]];
      }
    }
  }

  predicate ClearOfUserds(b: RingBinding, userds: seq<UserdBinding>) {
    forall i :: 0 <= i < |userds| ==> !Overlaps(b.cpuAddress, b.entries * 8, userds[i].userdCpuAddress, USERD_BYTES)
  }

  predicate ClearOfRings(b: RingBinding, others: seq<RingBinding>) {
    forall i :: 0 <= i < |others| ==> !Overlaps(b.cpuAddress, b.entries * 8, others[i].cpuAddress, others[i].entries * 8)
  }

  datatype BoundSet = BoundSet(userds: seq<UserdBinding>, rings: seq<RingBinding>)

  /** The check loop: the first ring that aliases a block or an earlier ring stops it. */
  function Separate(rings: seq<RingBinding>, userds: seq<UserdBinding>, i: nat): (r: Requirement)
    requires i <= |rings|
    ensures r.Met? <==> forall j :: i <= j < |rings| ==> ClearOfUserds(rings[j], userds) && ClearOfRings(rings[j], rings[..j])
    decreases |rings| - i
  {
    if i == |rings| then Met
    else if !ClearOfUserds(rings[i], userds) then Unmet("ring_set_aliases_userd")
    else if !ClearOfRings(rings[i], rings[..i]) then Unmet("ring_set_aliases_another_ring")
    else Separate(rings, userds, i + 1)
  }

  function BindSet(events: seq<Event>, identity: Identity, channels: seq<Channel>,
                   memories: seq<MemoryRecord>, vmas: seq<Vma>): Result<BoundSet>
  {
    var userds :- Snapshot(events, identity, channels, memories, vmas);
    var rings :- BindRings(events, identity, channels, userds, vmas);
    :- Separate(rings, userds, 0);
    Ok(BoundSet(userds, rings))
  }

  // ----- Regions

  datatype Region = Region(start: int, size: nat) {
    predicate Has(a: int) {
      start <= a < start + size
    }
  }

  /** Every block and every ring of a bound set. */
  function Regions(s: BoundSet): (r: seq<Region>)
    ensures |r| == |s.userds| + |s.rings|
    ensures forall i :: 0 <= i < |s.userds| ==> r[i] == Region(s.userds[i].userdCpuAddress, USERD_BYTES)
    ensures forall i :: 0 <= i < |s.rings| ==> r[|s.userds| + i] == Region(s.rings[i].cpuAddress, s.rings[i].entries * 8)
  {
    seq(|s.userds|, i requires 0 <= i < |s.userds| => Region(s.userds[i].userdCpuAddress, USERD_BYTES)) +
    seq(|s.rings|, i requires 0 <= i < |s.rings| => Region(s.rings[i].cpuAddress, s.rings[i].entries * 8))
  }

  ghost predicate Disjoint(r: Region, s: Region) {
    forall a :: !(r.Has(a) && s.Has(a))
  }

  predicate Distinct(userds: seq<UserdBinding>) {
    forall i, j :: 0 <= i < j < |userds| ==> userds[i].userdCpuAddress != userds[j].userdCpuAddress
  }

  /** The cardinality test is distinctness. */
  lemma {:induction false} DistinctExactly(userds: seq<UserdBinding>)
    ensures |Addresses(userds)| == |userds| <==> Distinct(userds)
  {
    hide Distinct, Addresses;
    if userds == [] {
      NoneDistinct();
    } else {
      var front, last := userds[..|userds| - 1], userds[|userds| - 1];
      assert userds == front + [last];
      DistinctExactly(front);
      AddressesGrow(front, last);
      OneMoreAddress(Addresses(front), last.userdCpuAddress);
      OneMoreDistinct(front, last);
    }
  }

  lemma AddressesGrow(front: seq<UserdBinding>, last: UserdBinding)
    ensures Addresses(front + [last]) == Addresses(front) + {last.userdCpuAddress}
  {
    assert (front + [last])[..|front|] == front;
  }

  lemma NoneDistinct()
    ensures Distinct([]) && |Addresses([])| == 0
  {
  }

  lemma OneMoreAddress(addresses: set<int>, last: int)
    ensures |addresses + {last}| == if last in addresses then |addresses| else |addresses| + 1
  {
    if last in addresses {
      assert addresses + {last} == addresses;
    }
  }

  lemma OneMoreDistinct(front: seq<UserdBinding>, last: UserdBinding)
    ensures Distinct(front + [last]) <==> Distinct(front) && last.userdCpuAddress !in Addresses(front)
  {
    hide Addresses;
    var all, n := front + [last], |front|;
    assert forall i :: 0 <= i < n ==> all[i] == front[i];
    assert all[n] == last;
    assert last.userdCpuAddress in Addresses(front) ==>
             exists i :: 0 <= i < n && all[i].userdCpuAddress == all[n].userdCpuAddress;
  }

  /** One of the byte ranges ends before the other begins. */
  predicate Apart(start: int, size: nat, other: int, otherSize: nat) {
    other + otherSize <= start || start + size <= other
  }

  /** `bind_set` answers with a set exactly if the group is not empty, each member has
      its block and its ring, no two blocks are at one address, and every ring is apart
      from every block of 512 bytes and from every other ring. */
  lemma BindSetExactly(events: seq<Event>, identity: Identity, channels: seq<Channel>, memories: seq<MemoryRecord>,
                       vmas: seq<Vma>, s: BoundSet)
    ensures BindSet(events, identity, channels, memories, vmas) == Ok(s)
       <==> && channels != [] && AllResolved(events, identity, channels, memories, vmas, s.userds)
            && Distinct(s.userds) && AllRings(events, identity, channels, s.userds, vmas, s.rings)
            && (forall i, j :: 0 <= i < |s.rings| && 0 <= j < |s.userds| ==>
                  Apart(s.rings[i].cpuAddress, s.rings[i].entries * 8, s.userds[j].userdCpuAddress, 512))
            && (forall i, j :: 0 <= j < i < |s.rings| ==>
                  Apart(s.rings[i].cpuAddress, s.rings[i].entries * 8, s.rings[j].cpuAddress, s.rings[j].entries * 8))
  {
    hide AllResolved, AllRings, BindUserds, BindRings, Addresses, Distinct;
    UserdsExactly(events, identity, channels, memories, vmas, s.userds);
    DistinctExactly(s.userds);
    if |channels| == |s.userds| {
      RingsExactly(events, identity, channels, s.userds, vmas, s.rings);
    }
    SeparateExactly(s);
  }

  lemma SeparateExactly(s: BoundSet)
    ensures Separate(s.rings, s.userds, 0).Met?
       <==> && (forall i, j :: 0 <= i < |s.rings| && 0 <= j < |s.userds| ==>
                  Apart(s.rings[i].cpuAddress, s.rings[i].entries * 8, s.userds[j].userdCpuAddress, 512))
            && (forall i, j :: 0 <= j < i < |s.rings| ==>
                  Apart(s.rings[i].cpuAddress, s.rings[i].entries * 8, s.rings[j].cpuAddress, s.rings[j].entries * 8))
  {
    hide Separate;
    if Separate(s.rings, s.userds, 0).Met? {
      forall i, j | 0 <= j < i < |s.rings|
        ensures Apart(s.rings[i].cpuAddress, s.rings[i].entries * 8, s.rings[j].cpuAddress, s.rings[j].entries * 8) {
        assert ClearOfRings(s.rings[i], s.rings[..i]) && s.rings[..i][j] == s.rings[j];
      }
    }
  }

  lemma AlignedApart(x: int, y: int)
    requires x % USERD_BYTES == 0 && y % USERD_BYTES == 0 && x < y
    ensures x + USERD_BYTES <= y
  {
  }

  lemma {:induction false} BlocksApart(events: seq<Event>, identity: Identity, channels: seq<Channel>,
                    memories: seq<MemoryRecord>, vmas: seq<Vma>, userds: seq<UserdBinding>, i: nat, j: nat)
    requires WellFormed(events) && Snapshot(events, identity, channels, memories, vmas) == Ok(userds)
    requires i < j < |userds|
    ensures Disjoint(Region(userds[i].userdCpuAddress, USERD_BYTES), Region(userds[j].userdCpuAddress, USERD_BYTES))
  {
    hide ResolveChannel, WellFormed, Replay, Addresses, BindUserds;
    DistinctExactly(userds);
    UserdsExactly(events, identity, channels, memories, vmas, userds);
    MappingIsSound(events, identity, channels[i], memories, vmas, userds[i]);
    MappingIsSound(events, identity, channels[j], memories, vmas, userds[j]);
    var x, y := userds[i].userdCpuAddress, userds[j].userdCpuAddress;
    if x < y {
      AlignedApart(x, y);
    } else {
      AlignedApart(y, x);
    }
  }

  lemma RingApart(s: BoundSet, i: nat, k: nat)
    requires Separate(s.rings, s.userds, 0).Met? && k < |s.rings| && i < |s.userds| + k
    ensures Disjoint(Regions(s)[i], Regions(s)[|s.userds| + k])
  {
    hide Separate;
    var n := |s.userds|;
    assert ClearOfUserds(s.rings[k], s.userds) && ClearOfRings(s.rings[k], s.rings[..k]);
    if i < n {
      assert Regions(s)[i] == Region(s.userds[i].userdCpuAddress, USERD_BYTES);
    } else {
      assert s.rings[..k][i - n] == s.rings[i - n];
      assert Regions(s)[n + (i - n)] == Region(s.rings[i - n].cpuAddress, s.rings[i - n].entries * 8);
    }
  }

  /** However many channels the group has: all blocks and rings of an accepted set
      are pairwise disjoint. Rings are separated by the checks, blocks by being
      distinct and aligned. */
  lemma {:induction false} BoundSetsAreDisjoint(events: seq<Event>, identity: Identity, channels: seq<Channel>,
                             memories: seq<MemoryRecord>, vmas: seq<Vma>, s: BoundSet, i: nat, j: nat)
    requires WellFormed(events) && BindSet(events, identity, channels, memories, vmas) == Ok(s)
    requires i < j < |Regions(s)|
    ensures Disjoint(Regions(s)[i], Regions(s)[j])
  {
    hide Snapshot, BindRings, WellFormed, Separate;
    var n := |s.userds|;
    assert Separate(s.rings, s.userds, 0).Met?;
    hide BindSet;
    if j < n {
      BlocksApart(events, identity, channels, memories, vmas, s.userds, i, j);
    } else {
      RingApart(s, i, j - n);
    }
  }

  /** A store into one region of an accepted set leaves every other region as it was. */
  lemma {:induction false} StoreStaysInside(events: seq<Event>, identity: Identity, channels: seq<Channel>,
                         memories: seq<MemoryRecord>, vmas: seq<Vma>, s: BoundSet,
                         bytes: map<int, bv8>, i: nat, j: nat, a: int, b: int, value: bv8)
    requires WellFormed(events) && BindSet(events, identity, channels, memories, vmas) == Ok(s)
    requires i < |Regions(s)| && j < |Regions(s)| && i != j
    requires Regions(s)[i].Has(a) && Regions(s)[j].Has(b)
    ensures b in bytes <==> b in bytes[a := value]
    ensures b in bytes ==> bytes[a := value][b] == bytes[b]
  {
    hide BindSet, WellFormed;
    if i < j {
      BoundSetsAreDisjoint(events, identity, channels, memories, vmas, s, i, j);
    } else {
      BoundSetsAreDisjoint(events, identity, channels, memories, vmas, s, j, i);
    }
  }
}
