/** A simple machine that replays the log event by event: the flat table of
    live RM objects, the mmap context of each file descriptor, the CPU address
    space byte by byte, and the UVM address space of each UVM descriptor. */
module Kernel {
  import opened Results
  import opened EventLog

  /** What one byte of an address space shows: byte `offset` of the generation
      of a Memory object allocated by event `generation`, or something else. */
  datatype Backing = Rm(client: nat, memory: nat, generation: nat, offset: int) | Foreign

  datatype Context = Context(client: nat, memory: nat, generation: nat, offset: nat, length: nat)

  datatype Range = Range(length: nat, external: bool)

  datatype VaspaceRef = VaspaceRef(client: nat, vaspace: nat, generation: nat)

  datatype ChannelRef = ChannelRef(client: nat, channel: nat, generation: nat, uuid: string)

  /** `ranges` is keyed by base address, `bytes` is one GPU VA map per GPU. */
  datatype UvmSpace = UvmSpace(
    ranges: map<int, Range>,
    vaspaces: map<string, VaspaceRef>,
    channels: set<ChannelRef>,
    bytes: map<string, map<int, Backing>>)

  datatype State = State(
    objects: map<(nat, nat), Event>,
    contexts: map<int, Context>,
    cpu: map<int, Backing>,
    spaces: map<int, UvmSpace>,
    secondary: map<int, int>)

  const BOOT: State := State(map[], map[], map[], map[], map[])

  const FRESH_SPACE: UvmSpace := UvmSpace(map[], map[], {}, map[])

  function Generation(k: State, client: nat, handle: nat): nat {
    if (client, handle) in k.objects then k.objects[(client, handle)].seqNo else 0
  }

  // ----- CPU side

  /** The bytes an RM mmap context puts behind a file offset. */
  function ContextByte(c: Context, at: int): Backing {
    if 0 <= at < c.length then Rm(c.client, c.memory, c.generation, c.offset + at) else Foreign
  }

  function MmapByte(k: State, op: Op, a: int): Backing
    requires op.Mmap?
  {
    if op.sig.path.Some? && op.fd in k.contexts
    then ContextByte(k.contexts[op.fd], op.offset + a - op.address)
    else Foreign
  }

  function MapPages(k: State, op: Op): map<int, Backing>
    requires op.Mmap?
  {
    k.cpu + (map a | op.address <= a < op.address + PageUp(op.length) :: MmapByte(k, op, a))
  }

  function UnmapPages(cpu: map<int, Backing>, address: nat, length: nat): map<int, Backing> {
    map a | a in cpu && !InPages(a, address, length) :: cpu[a]
  }

  function MovedByte(cpu: map<int, Backing>, op: Op, a: int): Backing
    requires op.Mremap?
  {
    var from := a - op.newAddress + op.address;
    if from in cpu && InPages(from, op.address, op.length) then cpu[from] else Foreign
  }

  function MovePages(cpu: map<int, Backing>, op: Op): map<int, Backing>
    requires op.Mremap?
  {
    UnmapPages(cpu, op.address, op.length) +
    (map a | op.newAddress <= a < op.newAddress + PageUp(op.newLength) :: MovedByte(cpu, op, a))
  }

  lemma MovedTo(cpu: map<int, Backing>, op: Op, a: int)
    requires op.Mremap?
    ensures var moved := MovePages(cpu, op);
            && (a in moved <==> InPages(a, op.newAddress, op.newLength) || (a in cpu && !InPages(a, op.address, op.length)))
            && (a in moved ==>
                  moved[a] == if InPages(a, op.newAddress, op.newLength) then MovedByte(cpu, op, a) else cpu[a])
  {
    hide PageUp, MovedByte;
  }

  /** Moving mapped pages to a free place and back restores each byte. */
  lemma MoveBackRestores(cpu: map<int, Backing>, there: Op, back: Op, a: int)
    requires there.Mremap? && back.Mremap? && there.newLength == there.length == back.length == back.newLength
    requires back.address == there.newAddress && back.newAddress == there.address
    requires InPages(a, there.address, there.length) ==> a in cpu
    requires InPages(a, there.newAddress, there.length) ==> a !in cpu
    ensures var restored := MovePages(MovePages(cpu, there), back);
            && (a in restored <==> a in cpu) && (a in cpu ==> restored[a] == cpu[a])
  {
    hide PageUp, MovePages;
    var moved := MovePages(cpu, there);
    MovedTo(cpu, there, a);
    MovedTo(cpu, there, a - there.address + there.newAddress);
    MovedTo(moved, back, a);
  }

  function DropMemory(cpu: map<int, Backing>, client: nat, memory: nat): map<int, Backing> {
    map a | a in cpu && !(cpu[a].Rm? && cpu[a].client == client && cpu[a].memory == memory) :: cpu[a]
  }

  // ----- GPU side

  function GpuBytes(space: UvmSpace, uuid: string): map<int, Backing> {
    if uuid in space.bytes then space.bytes[uuid] else map[]
  }

  function Without(bytes: map<int, Backing>, base: int, length: nat): map<int, Backing> {
    map a | a in bytes && !(base <= a < base + length) :: bytes[a]
  }

  /** Forget every GPU's bytes in a range. */
  function ClearRange(space: UvmSpace, base: int, length: nat): UvmSpace {
    space.(bytes := map uuid | uuid in space.bytes :: Without(space.bytes[uuid], base, length))
  }

  function NamedGpus(attributes: seq<GpuAttribute>): set<string> {
    set i | 0 <= i < |attributes| :: attributes[i].uuid
  }

  function ExternalByte(op: Op, generation: nat, a: int): Backing
    requires op.UvmMapExternal?
  {
    Rm(op.client, op.memory, generation, op.offset + a - op.base)
  }

  function MapExternal(space: UvmSpace, op: Op, generation: nat): UvmSpace
    requires op.UvmMapExternal?
  {
    var mapped := map a | op.base <= a < op.base + op.length :: ExternalByte(op, generation, a);
    var named := NamedGpus(op.attributes);
    space.(bytes := map uuid | uuid in space.bytes.Keys + named ::
      if uuid in named then GpuBytes(space, uuid) + mapped else space.bytes[uuid])
  }

  function FreeRange(space: UvmSpace, base: int): UvmSpace {
    if base in space.ranges
    then ClearRange(space, base, space.ranges[base].length).(ranges := space.ranges - {base})
    else space
  }

  function CreateRange(space: UvmSpace, base: int, length: nat, external: bool): UvmSpace {
    ClearRange(space, base, length).(ranges := space.ranges[base := Range(length, external)])
  }

  /** One operation on an initialized UVM descriptor. */
  function UvmStep(k: State, space: UvmSpace, op: Op): UvmSpace {
    match op
    case UvmRegisterVaspace(_, _, client, vaspace, _, _, uuid) =>
      space.(vaspaces := space.vaspaces[uuid := VaspaceRef(client, vaspace, Generation(k, client, vaspace))])
    case UvmUnregisterVaspace(_, uuid) =>
      space.(vaspaces := space.vaspaces - {uuid}, bytes := space.bytes - {uuid})
    case UvmRegisterChannel(_, _, client, channel, _, _, uuid) =>
      space.(channels := space.channels + {ChannelRef(client, channel, Generation(k, client, channel), uuid)})
    case UvmUnregisterChannel(_, client, channel) =>
      space.(channels := set c | c in space.channels && !(c.client == client && c.channel == channel))
    case UvmMapExternal(_, _, client, memory, _, _, _, _, _, _) =>
      MapExternal(space, op, Generation(k, client, memory))
    case UvmUnmapExternal(_, base, length, uuid) =>
      if uuid in space.bytes
      then space.(bytes := space.bytes[uuid := Without(space.bytes[uuid], base, length)])
      else space
    case UvmFree(_, base) => FreeRange(space, base)
    case UvmCreateRange(_, base, length) => CreateRange(space, base, length, true)
    case UvmOtherRange(_, base, length) => CreateRange(space, base, length, false)
    case UvmUnreviewed(_) => space.(bytes := map[]) // worst case of an operation nobody decoded
    case _ => space
  }

  predicate OnUvmSpace(op: Op) {
    op.UvmRegisterVaspace? || op.UvmUnregisterVaspace? || op.UvmRegisterChannel? || op.UvmUnregisterChannel? ||
    op.UvmMapExternal? || op.UvmUnmapExternal? || op.UvmFree? || op.UvmCreateRange? || op.UvmOtherRange? ||
    op.UvmUnreviewed?
  }

  /** Repeating UVM_INITIALIZE on a live descriptor changes nothing. Closing a
      descriptor ends its space; closing a space's secondary descriptor ends the
      space's mappings too. */
  function SpacesAfter(k: State, op: Op): map<int, UvmSpace> {
    match op
    case UvmInitialize(fd, _, _) => if fd in k.spaces then k.spaces else k.spaces[fd := FRESH_SPACE]
    case Close(fd) => k.spaces - (if fd in k.secondary then {fd, k.secondary[fd]} else {fd})
    case _ =>
      if OnUvmSpace(op) && op.fd in k.spaces
      then k.spaces[op.fd := UvmStep(k, k.spaces[op.fd], op)]
      else k.spaces
  }

  function SecondaryAfter(k: State, op: Op): map<int, int> {
    match op
    case UvmInitialize(fd, _, _) =>
      if fd in k.spaces then k.secondary
      else map f | f in k.secondary && k.secondary[f] != fd :: k.secondary[f]
    case UvmMmInitialize(fd, uvmFd) => k.secondary[fd := uvmFd]
    case Close(fd) => k.secondary - {fd}
    case _ => k.secondary
  }

  // ----- Objects and descriptors

  function ObjectsAfter(objects: map<(nat, nat), Event>, e: Event): map<(nat, nat), Event> {
    if IsAllocation(e.op) then
      var named := objects[(e.op.client, e.op.handle) := e];
      if e.op.client == 0 then named[(e.op.handle, e.op.handle) := e] else named
    else if e.op.Free? then objects - {(e.op.client, e.op.handle)}
    else objects
  }

  function ContextsAfter(k: State, e: Event): map<int, Context> {
    match e.op
    case AllocMemory(client, handle, _, _, _, limit, mapFd) =>
      k.contexts[mapFd := Context(client, handle, e.seqNo, 0, limit + 1)]
    case MapMemory(client, _, memory, offset, length, _, mapFd, _) =>
      k.contexts[mapFd := Context(client, memory, Generation(k, client, memory), offset, length)]
    case Close(fd) => k.contexts - {fd}
    case _ => k.contexts
  }

  function CpuAfter(k: State, op: Op): map<int, Backing> {
    match op
    case UnmapMemory(client, memory) => DropMemory(k.cpu, client, memory)
    case Mmap(_, _, _, _, _, _, _, _) => MapPages(k, op)
    case Munmap(address, length) => UnmapPages(k.cpu, address, length)
    case Mremap(_, _, _, _) => MovePages(k.cpu, op)
    case _ => k.cpu
  }

  /** A failed call has no effect. */
  function Step(k: State, e: Event): State {
    if !Succeeded(e) then k
    else State(ObjectsAfter(k.objects, e), ContextsAfter(k, e), CpuAfter(k, e.op),
               SpacesAfter(k, e.op), SecondaryAfter(k, e.op))
  }

  /** The machine after the first `n` events. */
  function Replay(events: seq<Event>, n: nat): State
    requires n <= |events|
  {
    if n == 0 then BOOT else Step(Replay(events, n - 1), events[n - 1])
  }

  // ----- What the kernel guarantees of a call it lets succeed

  predicate PagesFree(cpu: map<int, Backing>, address: nat, length: nat) {
    forall a :: InPages(a, address, length) ==> a !in cpu
  }

  predicate HostedBy(space: UvmSpace, host: int, base: int, length: nat) {
    && host in space.ranges
    && space.ranges[host].external
    && host <= base
    && base + length <= host + space.ranges[host].length
  }

  predicate RangeFree(space: UvmSpace, base: int, length: nat) {
    forall b :: b in space.ranges ==> base + length <= b || b + space.ranges[b].length <= base
  }

  /** A mapping call names whole pages; one without MAP_FIXED lands on free
      pages. A UVM registration needs an initialized descriptor, a UVM range is
      created where no range is live, and an external mapping lies inside one live
      external range. */
  ghost predicate Lawful(k: State, e: Event) {
    Succeeded(e) ==>
      match e.op
      case Mmap(_, _, address, length, _, _, _, fixed) =>
        address % PAGE == 0 && 0 < length && (fixed || PagesFree(k.cpu, address, length))
      case Munmap(address, length) => address % PAGE == 0 && 0 < length
      case Mremap(address, _, newAddress, newLength) =>
        address % PAGE == 0 && newAddress % PAGE == 0 && 0 < newLength
      case UvmRegisterVaspace(fd, _, _, _, _, _, _) => fd in k.spaces
      case UvmRegisterChannel(fd, _, _, _, _, _, _) => fd in k.spaces
      case UvmMapExternal(fd, _, _, _, _, _, base, length, _, _) =>
        0 < length && fd in k.spaces && exists host :: HostedBy(k.spaces[fd], host, base, length)
      case UvmCreateRange(fd, base, length) =>
        0 < length && fd in k.spaces && RangeFree(k.spaces[fd], base, length)
      case UvmOtherRange(fd, base, length) =>
        0 < length && fd in k.spaces && RangeFree(k.spaces[fd], base, length)
      case _ => true
  }

  /** A log the observer could have captured from this machine. */
  ghost predicate WellFormed(events: seq<Event>) {
    && Numbered(events)
    && forall i :: 0 <= i < |events| ==> Lawful(Replay(events, i), events[i])
  }
}
