/** What the replaying machine keeps of one UVM space between the events that
    `resolve_ring` looks at. */
module UvmLifetime {
  import opened Results
  import opened EventLog
  import opened Kernel

  predicate Initializes(e: Event, fd: int) {
    Succeeded(e) && e.op.UvmInitialize? && e.op.fd == fd
  }

  /** A later event that ends, or may come to end, the space of `fd`. `live` are
      the descriptors that keep the space alive. */
  predicate EndsSpace(e: Event, fd: int, live: set<int>) {
    && Succeeded(e)
    && ((e.op.Close? && e.op.fd in live) || (e.op.UvmMmInitialize? && e.op.uvmFd == fd && e.op.fd !in live))
  }

  /** Event `i` creates the space and no later event ends it. */
  ghost predicate SpaceUndisturbed(events: seq<Event>, i: nat, fd: int, live: set<int>) {
    && i < |events| && fd in live
    && Initializes(events[i], fd)
    && (forall j :: 0 <= j < i ==> !Initializes(events[j], fd))
    && (forall j :: i < j < |events| ==> !EndsSpace(events[j], fd, live))
  }

  lemma {:induction false} NoSpaceBefore(events: seq<Event>, n: nat, fd: int)
    requires n <= |events| && forall j :: 0 <= j < n ==> !Initializes(events[j], fd)
    ensures fd !in Replay(events, n).spaces
  {
    if n != 0 {
      NoSpaceBefore(events, n - 1, fd);
      assert !Initializes(events[n - 1], fd);
    }
  }

  predicate SpaceAlive(k: State, fd: int, live: set<int>) {
    fd in k.spaces && forall f :: f in k.secondary && k.secondary[f] == fd ==> f in live
  }

  lemma SpaceAliveStep(k: State, e: Event, fd: int, live: set<int>)
    requires fd in live && SpaceAlive(k, fd, live) && !EndsSpace(e, fd, live)
    ensures SpaceAlive(Step(k, e), fd, live)
    ensures Step(k, e).spaces[fd] ==
              if Succeeded(e) && OnUvmSpace(e.op) && e.op.fd == fd then UvmStep(k, k.spaces[fd], e.op) else k.spaces[fd]
  {
    hide UvmStep, ObjectsAfter, ContextsAfter, CpuAfter;
  }

  lemma {:induction false} SpaceLives(events: seq<Event>, i: nat, n: nat, fd: int, live: set<int>)
    requires SpaceUndisturbed(events, i, fd, live) && i < n <= |events|
    ensures SpaceAlive(Replay(events, n), fd, live)
    ensures n == i + 1 ==> Replay(events, n).spaces[fd] == FRESH_SPACE
  {
    if n == i + 1 {
      NoSpaceBefore(events, i, fd);
    } else {
      SpaceLives(events, i, n - 1, fd, live);
      SpaceAliveStep(Replay(events, n - 1), events[n - 1], fd, live);
    }
  }

  function SpaceAt(events: seq<Event>, n: nat, fd: int): UvmSpace
    requires n <= |events| && fd in Replay(events, n).spaces
  {
    Replay(events, n).spaces[fd]
  }

  /** One event moves an undisturbed space by one operation, or not at all. */
  lemma SpaceMoves(events: seq<Event>, i: nat, n: nat, fd: int, live: set<int>)
    requires SpaceUndisturbed(events, i, fd, live) && i < n < |events|
    ensures fd in Replay(events, n).spaces && fd in Replay(events, n + 1).spaces
    ensures var e := events[n];
            SpaceAt(events, n + 1, fd) ==
              if Succeeded(e) && OnUvmSpace(e.op) && e.op.fd == fd
              then UvmStep(Replay(events, n), SpaceAt(events, n, fd), e.op)
              else SpaceAt(events, n, fd)
  {
    SpaceLives(events, i, n, fd, live);
    SpaceAliveStep(Replay(events, n), events[n], fd, live);
  }

  // ----- Registrations

  predicate TouchesVaspace(e: Event, fd: int, uuid: string) {
    && Succeeded(e) && (e.op.UvmRegisterVaspace? || e.op.UvmUnregisterVaspace?)
    && e.op.fd == fd && e.op.uuid == uuid
  }

  lemma {:induction false} VaspaceKept(events: seq<Event>, i: nat, r: nat, n: nat, fd: int, live: set<int>,
                                       uuid: string)
    requires SpaceUndisturbed(events, i, fd, live) && i < r < n <= |events|
    requires Succeeded(events[r]) && events[r].op.UvmRegisterVaspace? && TouchesVaspace(events[r], fd, uuid)
    requires forall j :: r < j < |events| ==> !TouchesVaspace(events[j], fd, uuid)
    ensures fd in Replay(events, n).spaces
    ensures var op := events[r].op;
            var vaspaces := SpaceAt(events, n, fd).vaspaces;
            uuid in vaspaces && vaspaces[uuid] ==
              VaspaceRef(op.client, op.vaspace, Generation(Replay(events, r), op.client, op.vaspace))
  {
    SpaceMoves(events, i, n - 1, fd, live);
    if n > r + 1 {
      VaspaceKept(events, i, r, n - 1, fd, live, uuid);
      assert !TouchesVaspace(events[n - 1], fd, uuid);
    }
  }

  predicate UnregistersIn(e: Event, fd: int, client: nat, channel: nat) {
    Succeeded(e) && e.op.UvmUnregisterChannel? && e.op.fd == fd && e.op.client == client && e.op.channel == channel
  }

  lemma {:induction false} ChannelKept(events: seq<Event>, i: nat, c: nat, n: nat, fd: int, live: set<int>)
    requires SpaceUndisturbed(events, i, fd, live) && i < c < n <= |events|
    requires Succeeded(events[c]) && events[c].op.UvmRegisterChannel? && events[c].op.fd == fd
    requires forall j :: c < j < |events| ==> !UnregistersIn(events[j], fd, events[c].op.client, events[c].op.channel)
    ensures fd in Replay(events, n).spaces
    ensures var op := events[c].op;
            ChannelRef(op.client, op.channel, Generation(Replay(events, c), op.client, op.channel), op.uuid)
              in SpaceAt(events, n, fd).channels
  {
    SpaceMoves(events, i, n - 1, fd, live);
    if n > c + 1 {
      ChannelKept(events, i, c, n - 1, fd, live);
      assert !UnregistersIn(events[n - 1], fd, events[c].op.client, events[c].op.channel);
    }
  }

  // ----- Ranges

  ghost predicate RangesApart(space: UvmSpace) {
    forall a, b :: a in space.ranges && b in space.ranges && a < b ==> a + space.ranges[a].length <= b
  }

  lemma RangesApartStep(k: State, space: UvmSpace, e: Event, fd: int)
    requires Lawful(k, e) && Succeeded(e) && OnUvmSpace(e.op) && e.op.fd == fd
    requires fd in k.spaces && k.spaces[fd] == space && RangesApart(space)
    ensures RangesApart(UvmStep(k, space, e.op))
  {
    hide ClearRange;
    match e.op
    case UvmCreateRange(_, base, length) => CreatedRangesApart(space, base, length, true);
    case UvmOtherRange(_, base, length) => CreatedRangesApart(space, base, length, false);
    case _ =>
  }

  lemma CreatedRangesApart(space: UvmSpace, base: int, length: nat, external: bool)
    requires RangesApart(space) && RangeFree(space, base, length) && 0 < length
    ensures RangesApart(CreateRange(space, base, length, external))
  {
  }

  lemma SpaceIs(events: seq<Event>, n: nat, fd: int)
    requires n <= |events| && fd in Replay(events, n).spaces
    ensures SpaceAt(events, n, fd) == Replay(events, n).spaces[fd]
  {
  }

  lemma FreshRangesApart()
    ensures RangesApart(FRESH_SPACE)
  {
  }

  lemma {:induction false} RangesStayApart(events: seq<Event>, i: nat, n: nat, fd: int, live: set<int>)
    requires WellFormed(events) && SpaceUndisturbed(events, i, fd, live) && i < n <= |events|
    ensures fd in Replay(events, n).spaces && RangesApart(SpaceAt(events, n, fd))
  {
    hide Lawful, UvmStep, RangesApart, Step, Replay, SpaceAt, SpaceUndisturbed;
    SpaceLives(events, i, n, fd, live);
    SpaceIs(events, n, fd);
    if n == i + 1 {
      FreshRangesApart();
    } else {
      RangesStayApart(events, i, n - 1, fd, live);
      SpaceMoves(events, i, n - 1, fd, live);
      SpaceIs(events, n - 1, fd);
      var k, e := Replay(events, n - 1), events[n - 1];
      if Succeeded(e) && OnUvmSpace(e.op) && e.op.fd == fd {
        RangesApartStep(k, SpaceAt(events, n - 1, fd), e, fd);
      }
    }
  }

  /** At most one live range hosts a nonempty mapping. */
  lemma HostIsUnique(space: UvmSpace, host: int, other: int, base: int, length: nat)
    requires RangesApart(space) && 0 < length
    requires HostedBy(space, host, base, length) && HostedBy(space, other, base, length)
    ensures host == other
  {
  }
}
