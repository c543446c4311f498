/** The in-process observer: one numbered log, and a short read window during
    which only samples and marks may be logged.

    Once recording, every entry point holds the observer's mutex for its whole body
    (arming with rings holds it twice), so a run of the threaded program is a
    sequence of the methods below, in any order. */
module Observer {
  import opened Hardware

  const MAX_ROWS: nat := 20000
  const MAX_ROUNDS: nat := 256
  const MAX_CHANNELS: nat := 32
  const MAX_ENTRIES: bv32 := 4096
  const WINDOW_NS: nat := 3000000000

  datatype Counters = Counters(get: bv32, put: bv32)

  /** The CUDA call a sample follows, or none: times 0 and result -1. */
  datatype Api = Api(begin: nat, end: nat, result: int)

  datatype Reading = Reading(ordinal: nat, counters: Counters)

  datatype SampleKind = UserdSample | RingProgress | RingSample | RingSetSample

  /** Every sample loads each channel's counters twice: a plain one channel by channel,
      one of armed rings in two passes around two reads of every ring entry. `index`
      is 0 where the row has none. */
  datatype Record =
    | Start
    | Mark(tag: string)
    | Sample(kind: SampleKind, tag: string, index: nat, round: nat, api: Api,
             before: seq<Reading>, rings: seq<RingRead>, after: seq<Reading>)
    | Captured(name: string)

  datatype Row = Row(seqNo: nat, record: Record)

  // ----- What a log promises its readers

  predicate Quiet(record: Record) {
    record.Mark? || record.Sample?
  }

  function Samples(rows: seq<Row>): (samples: seq<Record>)
    ensures forall k :: 0 <= k < |samples| ==> samples[k].Sample?
  {
    if rows == [] then []
    else
      var last := rows[|rows| - 1].record;
      Samples(rows[..|rows| - 1]) + if last.Sample? then [last] else []
  }

  predicate OnePerChannel(channels: seq<Reading>, count: nat) {
    |channels| == count && forall i :: 0 <= i < |channels| ==> channels[i].ordinal == i
  }

  /** Both loads cover every channel once, in order. */
  predicate Complete(sample: Record, count: nat) {
    sample.Sample? && OnePerChannel(sample.before, count) && OnePerChannel(sample.after, count)
  }

  /** A stretch of rows holding exactly the samples 0..rounds-1, in order, each
      with two readings per channel, and otherwise only marks. */
  ghost predicate Window(rows: seq<Row>, count: nat, rounds: nat) {
    && (forall i :: 0 <= i < |rows| ==> Quiet(rows[i].record))
    && |Samples(rows)| == rounds
    && forall k :: 0 <= k < rounds ==> Samples(rows)[k].round == k && Complete(Samples(rows)[k], count)
  }

  predicate Consecutive(rows: seq<Row>) {
    forall i :: 0 <= i < |rows| ==> rows[i].seqNo == i + 1
  }

  ghost predicate HasWindow(rows: seq<Row>, i: nat, count: nat, round: nat)
    requires i < |rows|
  {
    exists start :: 0 <= start <= i && Window(rows[start..i], count, round)
  }

  /** Every logged sample numbered k closes a window that already holds 0..k-1. */
  ghost predicate Unbroken(rows: seq<Row>) {
    forall i :: 0 <= i < |rows| && rows[i].record.Sample? ==>
      HasWindow(rows, i, |rows[i].record.before|, rows[i].record.round)
  }

  lemma SamplesAppend(rows: seq<Row>, row: Row)
    ensures Samples(rows + [row]) == Samples(rows) + if row.record.Sample? then [row.record] else []
  {
    assert (rows + [row])[..|rows|] == rows;
  }

  lemma WindowAppend(rows: seq<Row>, row: Row, count: nat, rounds: nat)
    requires Window(rows, count, rounds)
    requires row.record.Mark? ||
             (row.record.Sample? && row.record.round == rounds && Complete(row.record, count))
    ensures Window(rows + [row], count, if row.record.Sample? then rounds + 1 else rounds)
  {
    SamplesAppend(rows, row);
  }

  lemma UnbrokenAppend(rows: seq<Row>, row: Row)
    requires Unbroken(rows)
    requires row.record.Sample? ==>
               exists start :: 0 <= start <= |rows| && Window(rows[start..], |row.record.before|, row.record.round)
    ensures Unbroken(rows + [row])
  {
    var more := rows + [row];
    forall i | 0 <= i < |more| && more[i].record.Sample?
      ensures HasWindow(more, i, |more[i].record.before|, more[i].record.round)
    {
      if i < |rows| {
        assert more[i] == rows[i];
        var start :| 0 <= start <= i && Window(rows[start..i], |rows[i].record.before|, rows[i].record.round);
        assert more[start..i] == rows[start..i];
      } else {
        var start :| 0 <= start <= |rows| && Window(rows[start..], |row.record.before|, row.record.round);
        assert more[start..i] == rows[start..];
      }
    }
  }

  lemma NothingYet(rows: seq<Row>, count: nat)
    ensures Window(rows[|rows|..], count, 0)
  {
  }

  lemma SampleAppend(rows: seq<Row>, row: Row, start: nat, count: nat, rounds: nat)
    requires Unbroken(rows) && start <= |rows| && Window(rows[start..], count, rounds)
    requires row.record.Sample? && row.record.round == rounds && Complete(row.record, count)
    ensures Unbroken(rows + [row]) && Window((rows + [row])[start..], count, rounds + 1)
  {
    hide Window, Unbroken;
    UnbrokenAppend(rows, row);
    WindowAppend(rows[start..], row, count, rounds);
    assert (rows + [row])[start..] == rows[start..] + [row];
  }

  /** Reading a log offline: behind every sample numbered k > 0 stands sample
      k - 1, with nothing but marks in between. */
  lemma SampleFollowsPrevious(rows: seq<Row>, i: nat)
    requires Unbroken(rows) && i < |rows| && rows[i].record.Sample? && rows[i].record.round > 0
    ensures exists j ::
              && 0 <= j < i && rows[j].record.Sample? && rows[j].record.round == rows[i].record.round - 1
              && |rows[j].record.before| == |rows[i].record.before|
              && forall m :: j < m < i ==> rows[m].record.Mark?
  {
    var sample := rows[i].record;
    var start :| 0 <= start <= i && Window(rows[start..i], |sample.before|, sample.round);
    var j := LastSample(rows[start..i]);
    assert rows[start + j] == rows[start..i][j];
    forall m | start + j < m < i ensures rows[m].record.Mark? {
      assert rows[m] == rows[start..i][m - start];
    }
  }

  lemma {:induction false} LastSample(rows: seq<Row>) returns (j: nat)
    requires Samples(rows) != []
    ensures j < |rows| && rows[j].record == Samples(rows)[|Samples(rows)| - 1]
    ensures rows[j].record.Sample? && forall m :: j < m < |rows| ==> !rows[m].record.Sample?
  {
    var front := rows[..|rows| - 1];
    if rows[|rows| - 1].record.Sample? {
      j := |rows| - 1;
    } else {
      j := LastSample(front);
      assert forall m :: 0 <= m < |front| ==> front[m] == rows[m];
    }
  }

  // ----- Arguments

  predicate PlainLabel(tag: string) {
    forall c :: c in tag ==> 'a' <= c <= 'z' || c == '_'
  }

  /** The span of label letters that a string begins with. */
  method LabelSpan(tag: string) returns (n: nat)
    ensures n <= |tag| && (n == |tag| <==> PlainLabel(tag))
  {
    n := 0;
    while n < |tag| && ('a' <= tag[n] <= 'z' || tag[n] == '_')
      invariant n <= |tag| && forall i :: 0 <= i < n ==> 'a' <= tag[i] <= 'z' || tag[i] == '_'
    {
      n := n + 1;
    }
    assert n < |tag| ==> tag[n] in tag;
  }

  predicate Distinct<T(==)>(values: seq<T>) {
    forall i, j :: 0 <= j < i < |values| ==> values[i] != values[j]
  }

  predicate UsableBlocks(addresses: seq<nat>) {
    && 0 < |addresses| <= 32
    && (forall i :: 0 <= i < |addresses| ==> addresses[i] != 0 && addresses[i] % 512 == 0)
    && Distinct(addresses)
  }

  predicate UsableRing(address: nat, entries: bv32) {
    address != 0 && address % 8 == 0 && 0 < entries <= 4096 && PowerOfTwo(entries as nat)
  }

  predicate UsableRings(rings: seq<nat>, entries: seq<bv32>) {
    && 0 < |rings| == |entries| <= 32
    && (forall i :: 0 <= i < |rings| ==> UsableRing(rings[i], entries[i]))
    && Distinct(rings)
  }

  method CheckBlocks(addresses: seq<nat>) returns (usable: bool)
    ensures usable == UsableBlocks(addresses)
  {
    if |addresses| == 0 || |addresses| > MAX_CHANNELS {
      return false;
    }
    for i := 0 to |addresses|
      invariant forall k :: 0 <= k < i ==> addresses[k] != 0 && addresses[k] % USERD_BYTES == 0
      invariant Distinct(addresses[..i])
    {
      if addresses[i] == 0 || addresses[i] % USERD_BYTES != 0 {
        return false;
      }
      for j := 0 to i
        invariant forall k :: 0 <= k < j ==> addresses[i] != addresses[k]
      {
        if addresses[i] == addresses[j] {
          return false;
        }
      }
    }
    assert addresses[..|addresses|] == addresses;
    return true;
  }

  /** The bit test for powers of two, as the ring checks use it. */
  method CheckRing(address: nat, entries: bv32) returns (usable: bool)
    ensures usable == UsableRing(address, entries)
  {
    hide PowerOfTwo;
    if 0 < entries <= MAX_ENTRIES {
      BitTest(entries);
    }
    usable := !(address == 0 || address % 8 != 0 || entries == 0 || entries > MAX_ENTRIES ||
                entries & (entries - 1) != 0);
  }

  method CheckRings(rings: seq<nat>, entries: seq<bv32>) returns (usable: bool)
    requires |rings| == |entries|
    ensures usable == UsableRings(rings, entries)
  {
    hide UsableRing;
    if |rings| == 0 || |rings| > MAX_CHANNELS {
      return false;
    }
    for i := 0 to |rings|
      invariant forall k :: 0 <= k < i ==> UsableRing(rings[k], entries[k])
      invariant Distinct(rings[..i])
    {
      var good := CheckRing(rings[i], entries[i]);
      if !good {
        return false;
      }
      for j := 0 to i
        invariant forall k :: 0 <= k < j ==> rings[i] != rings[k]
      {
        if rings[i] == rings[j] {
          return false;
        }
      }
    }
    assert rings[..|rings|] == rings;
    return true;
  }

  /** At load `pass`, channel i's reading comes from the i-th armed address. */
  predicate ReadFrom(readings: seq<Reading>, addresses: seq<nat>, memory: (nat, nat) -> Counters, pass: nat) {
    && |readings| == |addresses|
    && forall i :: 0 <= i < |addresses| ==> readings[i] == Reading(i, memory(pass, addresses[i]))
  }

  /** Both reads of a ring run over all its entries, from its own address. */
  predicate ReadsRing(read: RingRead, ordinal: nat, address: nat, entries: bv32, words: (nat, nat) -> Word) {
    && read.ordinal == ordinal && |read.first| == |read.second| == entries as nat
    && forall j :: 0 <= j < |read.first| ==>
         read.first[j] == words(0, address + 8 * j) && read.second[j] == words(1, address + 8 * j)
  }

  predicate ReadsRings(rings: seq<RingRead>, addresses: seq<nat>, entries: seq<bv32>, words: (nat, nat) -> Word) {
    && |rings| == |addresses| == |entries|
    && forall i :: 0 <= i < |addresses| ==> ReadsRing(rings[i], i, addresses[i], entries[i], words)
  }

  method ReadChannels(addresses: seq<nat>, memory: (nat, nat) -> Counters, pass: nat) returns (readings: seq<Reading>)
    ensures ReadFrom(readings, addresses, memory, pass) && OnePerChannel(readings, |addresses|)
  {
    readings := [];
    for i := 0 to |addresses|
      invariant |readings| == i
      invariant forall k :: 0 <= k < i ==> readings[k] == Reading(k, memory(pass, addresses[k]))
    {
      readings := readings + [Reading(i, memory(pass, addresses[i]))];
    }
  }

  /** Both loads of one channel, then the next. */
  method ReadTwice(addresses: seq<nat>, memory: (nat, nat) -> Counters) returns (first: seq<Reading>, second: seq<Reading>)
    ensures ReadFrom(first, addresses, memory, 0) && OnePerChannel(first, |addresses|)
    ensures ReadFrom(second, addresses, memory, 1) && OnePerChannel(second, |addresses|)
  {
    first, second := [], [];
    for i := 0 to |addresses|
      invariant |first| == |second| == i
      invariant forall k :: 0 <= k < i ==>
                  first[k] == Reading(k, memory(0, addresses[k])) && second[k] == Reading(k, memory(1, addresses[k]))
    {
      first := first + [Reading(i, memory(0, addresses[i]))];
      second := second + [Reading(i, memory(1, addresses[i]))];
    }
  }

  method ReadPass(address: nat, entries: nat, words: (nat, nat) -> Word, pass: nat) returns (values: seq<Word>)
    ensures |values| == entries
    ensures forall j :: 0 <= j < entries ==> values[j] == words(pass, address + 8 * j)
  {
    values := [];
    for i := 0 to entries
      invariant |values| == i
      invariant forall j :: 0 <= j < i ==> values[j] == words(pass, address + WORD_BYTES * j)
    {
      values := values + [words(pass, address + WORD_BYTES * i)];
    }
  }

  method ReadRing(ordinal: nat, address: nat, entries: bv32, words: (nat, nat) -> Word) returns (read: RingRead)
    ensures ReadsRing(read, ordinal, address, entries, words)
  {
    var first := ReadPass(address, entries as nat, words, 0);
    var second := ReadPass(address, entries as nat, words, 1);
    read := RingRead(ordinal, first, second);
  }

  method ReadRings(addresses: seq<nat>, entries: seq<bv32>, words: (nat, nat) -> Word) returns (rings: seq<RingRead>)
    requires |addresses| == |entries|
    ensures ReadsRings(rings, addresses, entries, words)
  {
    hide ReadsRing;
    rings := [];
    for i := 0 to |addresses|
      invariant |rings| == i
      invariant forall k :: 0 <= k < i ==> ReadsRing(rings[k], k, addresses[k], entries[k], words)
    {
      var read := ReadRing(i, addresses[i], entries[i], words);
      rings := rings + [read];
    }
  }

  // ----- The observer

  const NO_API := Api(0, 0, -1)

  /** What an entry point finds: the calling process, the raw monotonic clock, whether
      the log accepts a whole row, and what the mapped pages hold at the first and at
      the second load. */
  datatype Env = Env(pid: int, now: nat, written: bool, memory: (nat, nat) -> Counters, words: (nat, nat) -> Word)

  /** The locked sections another thread can execute. */
  datatype Entry =
    | CallMark(tag: string)
    | CallCapture(name: string, understood: bool)
    | CallArm(sequence: nat, addresses: seq<nat>)
    | CallAttach(address: nat, entries: bv32)
    | CallAttachSet(rings: seq<(nat, bv32)>)
    | CallSample(tag: string, api: Api)
    | CallRingSample(tag: string, index: nat, api: Api)
    | CallRingSetSample(tag: string, index: nat)
    | CallFinish

  class State {
    var recording: bool
    var logOpen: bool
    var owner: int
    var last: nat
    var failed: bool
    var readsArmed: bool
    var rounds: nat
    var deadline: nat
    var userdAddresses: seq<nat>
    var ringAddress: nat
    var ringEntries: bv32
    var ringAddresses: seq<nat>
    var ringCounts: seq<bv32>
    /** The complete rows in the log file. */
    var log: seq<Row>
    /** The sequence number the last window was armed at. */
    ghost var armedAt: nat

    ghost predicate Valid()
      reads this
    {
      && last <= 20000 && rounds <= 256 && |ringAddresses| == |ringCounts|
      && (!failed ==> |log| == last && Consecutive(log))
      && (readsArmed ==> UsableBlocks(userdAddresses))
      && (!failed && readsArmed ==> armedAt <= |log| && Window(log[armedAt..], |userdAddresses|, rounds))
      && Unbroken(log)
    }

    constructor ()
      ensures Valid() && !recording && !failed && !readsArmed && log == []
    {
      recording, logOpen, owner, last, failed, readsArmed, rounds := false, false, 0, 0, false, false, 0;
      deadline, userdAddresses, ringAddress, ringEntries, ringAddresses, ringCounts := 0, [], 0, 0, [], [];
      log, armedAt := [], 0;
    }

    /** One row. A number is spent even when the write fails. */
    method Emit(record: Record, pid: int, written: bool) returns (number: nat)
      modifies this`last, this`failed, this`log
      ensures old(owner != pid || !logOpen || last >= 20000) ==>
                number == 0 && failed && last == old(last) && log == old(log)
      ensures old(owner == pid && logOpen && last < 20000) ==>
                && last == old(last) + 1
                && log == (if written then old(log) + [Row(last, record)] else old(log))
                && failed == (old(failed) || !written || (readsArmed && !Quiet(record)))
                && number == if failed then 0 else last
    {
      if readsArmed && !Quiet(record) {
        failed := true;
      }
      if owner != pid || !logOpen || last >= MAX_ROWS {
        failed := true;
        return 0;
      }
      last := last + 1;
      if written {
        log := log + [Row(last, record)];
      } else {
        failed := true;
      }
      return if failed then 0 else last;
    }

    method Begin(pid: int, created: bool, written: bool) returns (begun: bool)
      requires Valid()
      modifies this
      ensures Valid() && (old(failed) ==> failed)
      ensures begun ==> !old(recording) && recording && logOpen && owner == pid && !failed
      ensures begun ==> log == old(log) + [Row(last, Start)]
      ensures if old(recording) || !created then !begun && unchanged(this)
              else (begun <==> written && old(!failed && !readsArmed && last < 20000)) && (begun || failed)
    {
      if recording || !created {
        return false;
      }
      logOpen, owner, recording := true, pid, true;
      ghost var before := log;
      var number := Emit(Start, pid, written);
      UnbrokenAppend(before, Row(last, Start));
      begun := number != 0;
    }

    method Mark(tag: string, pid: int, written: bool) returns (number: nat)
      requires Valid()
      modifies this`last, this`failed, this`log
      ensures Valid() && (old(failed) ==> failed) && old(log) <= log
      ensures number > 0 ==> !failed && number == last && log == old(log) + [Row(last, Record.Mark(tag))]
      ensures number == 0 ==> if recording && PlainLabel(tag) then failed else unchanged(this)
      ensures number > 0 <==>
                PlainLabel(tag) && written && old(recording && !failed && owner == pid && logOpen && last < 20000)
    {
      var span := LabelSpan(tag);
      if !recording || span != |tag| {
        return 0;
      }
      ghost var before := log;
      number := Emit(Record.Mark(tag), pid, written);
      Extended(before);
    }

    /** Any captured system call. `understood` is false for a call whose layout the
        decoder does not know, which fails the capture. */
    method Capture(name: string, understood: bool, pid: int, written: bool)
      requires Valid()
      modifies this`last, this`failed, this`log
      ensures Valid() && (old(failed) ==> failed) && old(log) <= log
      ensures recording ==>
                (failed <==> readsArmed || !understood || !written ||
                             old(failed || owner != pid || !logOpen || last >= 20000))
      ensures !recording ==> unchanged(this)
      ensures !failed && recording ==> log == old(log) + [Row(last, Captured(name))]
    {
      if !recording {
        return;
      }
      if !understood {
        failed := true;
      }
      ghost var before := log;
      var _ := Emit(Captured(name), pid, written);
      UnbrokenAppend(before, Row(last, Captured(name)));
    }

    /** Whether the capture can still be trusted. */
    method IsOk(pid: int) returns (ok: bool)
      requires Valid()
      ensures ok == (recording && !failed && owner == pid)
      ensures ok ==> |log| == last <= 20000 && Consecutive(log)
    {
      ok := recording && !failed && owner == pid;
    }

    /** Whether a window can be opened behind the row numbered `sequence`. */
    predicate CanArm(sequence: nat, pid: int)
      reads this
    {
      recording && !failed && !readsArmed && owner == pid && last == sequence
    }

    /** Opens a window directly behind the row numbered `sequence`. */
    method ArmReads(sequence: nat, addresses: seq<nat>, pid: int, now: nat) returns (armed: bool)
      requires Valid()
      modifies this
      ensures Valid()
      ensures armed == (old(CanArm(sequence, pid)) && UsableBlocks(addresses))
      ensures armed ==> Opened(sequence, addresses, now) && log == old(log) && last == old(last) && Unmoved(now)
      ensures armed ==> recording && owner == old(owner) && logOpen == old(logOpen)
      ensures !armed ==> unchanged(this)
    {
      hide Valid, UsableBlocks, Opened;
      if !recording || failed || readsArmed || owner != pid || last != sequence {
        return false;
      }
      armed := CheckBlocks(addresses);
      if armed {
        Open(addresses, now);
      }
    }

    /** A fresh window, without rings. */
    ghost predicate Opened(sequence: nat, addresses: seq<nat>, now: nat)
      reads this
    {
      && !failed && readsArmed && rounds == 0 && armedAt == sequence == |log|
      && userdAddresses == addresses && deadline == now + 3_000_000_000
      && ringAddress == 0 && ringEntries == 0 && ringAddresses == [] && ringCounts == []
    }

    method Open(addresses: seq<nat>, now: nat)
      requires Valid() && UsableBlocks(addresses) && !failed
      modifies this`userdAddresses, this`deadline, this`readsArmed, this`rounds, this`armedAt
      modifies this`ringAddress, this`ringEntries, this`ringAddresses, this`ringCounts
      ensures Valid() && Opened(last, addresses, now) && deadline == now + 3_000_000_000
    {
      hide Window, Unbroken, Consecutive, UsableBlocks;
      userdAddresses, deadline, readsArmed, rounds := addresses, now + WINDOW_NS, true, 0;
      ringAddress, ringEntries, ringAddresses, ringCounts := 0, 0, [], [];
      armedAt := last;
      NothingYet(log, |addresses|);
    }

    /** The second locked section of arming with one ring. */
    method AttachRing(address: nat, entries: bv32) returns (attached: bool)
      requires Valid()
      modifies this`ringAddress, this`ringEntries
      ensures Valid() && attached == !failed
      ensures if attached then ringAddress == address && ringEntries == entries
              else ringAddress == old(ringAddress) && ringEntries == old(ringEntries)
    {
      attached := !failed;
      if attached {
        ringAddress, ringEntries := address, entries;
      }
    }

    /** The second locked section of arming with a set of rings. */
    method AttachRings(addresses: seq<nat>, entries: seq<bv32>) returns (attached: bool)
      requires Valid() && |addresses| == |entries|
      modifies this`ringAddresses, this`ringCounts
      ensures Valid() && attached == !failed
      ensures if attached then ringAddresses == addresses && ringCounts == entries
              else ringAddresses == old(ringAddresses) && ringCounts == old(ringCounts)
    {
      attached := !failed;
      if attached {
        ringAddresses, ringCounts := addresses, entries;
      }
    }

    /** Arming itself writes no row; the window is open for three seconds. */
    twostate predicate Unmoved(now: nat)
      reads this
    {
      !failed && last == old(last) && logOpen == old(logOpen) && owner == old(owner) && deadline == now + 3_000_000_000
    }

    /** Arms with one ring. `others` are the entry points that other threads get in
        between the two locked sections; they can fail the capture or move the
        window on, and only a failure keeps the ring from being attached. */
    method ArmRing(sequence: nat, addresses: seq<nat>, address: nat, entries: bv32, metadata: bool, env: Env,
                   others: seq<(Entry, Env)>)
      returns (armed: bool)
      requires Valid()
      modifies this
      ensures Valid() && (old(failed) ==> failed)
      ensures var opens := metadata && UsableRing(address, entries) && UsableBlocks(addresses) && old(CanArm(sequence, env.pid));
              && (!opens ==> !armed && unchanged(this))
              && (opens ==> armed == !failed && old(log) <= log)
              && (opens && others == [] ==>
                    armed && log == old(log) && armedAt == sequence == |log| && readsArmed && rounds == 0 &&
                    recording && userdAddresses == addresses && ringAddresses == [] && Unmoved(env.now))
      ensures armed ==> ringAddress == address && ringEntries == entries
    {
      var usable := CheckRing(address, entries);
      if !metadata || !usable {
        return false;
      }
      armed := ArmReads(sequence, addresses, env.pid, env.now);
      if armed {
        Interleave(others);
        armed := AttachRing(address, entries);
      }
    }

    /** The same with a set of rings. */
    method ArmRingSet(sequence: nat, addresses: seq<nat>, rings: seq<nat>, entries: seq<bv32>, metadata: bool, env: Env,
                      others: seq<(Entry, Env)>)
      returns (armed: bool)
      requires Valid() && |rings| == |entries| == |addresses|
      modifies this
      ensures Valid() && (old(failed) ==> failed)
      ensures var opens := metadata && UsableRings(rings, entries) && UsableBlocks(addresses) && old(CanArm(sequence, env.pid));
              && (!opens ==> !armed && unchanged(this))
              && (opens ==> armed == !failed && old(log) <= log)
              && (opens && others == [] ==>
                    armed && log == old(log) && armedAt == sequence == |log| && readsArmed && rounds == 0 &&
                    recording && userdAddresses == addresses && ringAddress == 0 && Unmoved(env.now))
      ensures armed ==> ringAddresses == rings && ringCounts == entries
    {
      if !metadata {
        return false;
      }
      var usable := CheckRings(rings, entries);
      if !usable {
        return false;
      }
      armed := ArmReads(sequence, addresses, env.pid, env.now);
      if armed {
        Interleave(others);
        armed := AttachRings(rings, entries);
      }
    }

    /** Any entry points, in any order, each in an environment of its own. */
    method Interleave(others: seq<(Entry, Env)>)
      requires Valid()
      modifies this
      ensures Valid() && (old(failed) ==> failed) && old(log) <= log
      ensures others == [] ==> unchanged(this)
    {
      for i := 0 to |others|
        invariant Valid() && (old(failed) ==> failed) && old(log) <= log
        invariant i == 0 ==> unchanged(this)
      {
        Enter(others[i].0, others[i].1);
      }
    }

    method Enter(entry: Entry, env: Env)
      requires Valid()
      modifies this
      ensures Valid() && (old(failed) ==> failed) && old(log) <= log
    {
      match entry
      case CallMark(tag) => var _ := Mark(tag, env.pid, env.written);
      case CallCapture(name, understood) => Capture(name, understood, env.pid, env.written);
      case CallArm(sequence, addresses) => var _ := ArmReads(sequence, addresses, env.pid, env.now);
      case CallAttach(address, entries) => var _ := AttachRing(address, entries);
      case CallAttachSet(rings) =>
        var addresses := seq(|rings|, i requires 0 <= i < |rings| => rings[i].0);
        var entries := seq(|rings|, i requires 0 <= i < |rings| => rings[i].1);
        var _ := AttachRings(addresses, entries);
      case CallSample(tag, api) => var _ := TakeSample(tag, api, env);
      case CallRingSample(tag, index, api) => var _ := TakeRingSample(tag, index, api, env);
      case CallRingSetSample(tag, index) => var _, _ := TakeRingSetSample(tag, index, env);
      case CallFinish => var _ := FinishReads(env.pid, env.written);
    }

    /** When a sample is taken: the capture is sound, the window is open to this process,
        rounds, time and log are not used up, and the row can be written. */
    predicate CanSample(env: Env)
      reads this
    {
      && recording && !failed && readsArmed && owner == env.pid && rounds < 256 && env.now < deadline
      && logOpen && last < 20000 && env.written
    }

    /** Nothing in the observer's own state is in the way of `n` more rows of the window. */
    predicate HasRoom(n: nat)
      reads this
    {
      recording && readsArmed && !failed && logOpen && last + n <= 20000 && rounds + n <= 256
    }

    /** The common tail of the three samplers: a refused sample fails the capture. */
    method LogSample(sample: Record, ready: bool, env: Env) returns (sampled: bool)
      requires Valid() && recording && sample.Sample? && sample.round == rounds
      requires Complete(sample, |userdAddresses|)
      modifies this`last, this`failed, this`log, this`rounds
      ensures Valid() && (old(failed) ==> failed) && old(log) <= log
      ensures sampled == (ready && old(CanSample(env)))
      ensures sampled ==>
                && !failed && readsArmed && ready && env.now < deadline && old(rounds) < 256
                && rounds == old(rounds) + 1 && last == old(last) + 1 && log == old(log) + [Row(last, sample)]
      ensures !sampled ==> failed
    {
      hide Window, Unbroken, UsableBlocks, Complete;
      if failed || !readsArmed || !ready || owner != env.pid || rounds >= MAX_ROUNDS || env.now >= deadline {
        failed := true;
        return false;
      }
      ghost var before := log;
      rounds := rounds + 1;
      var number := Emit(sample, env.pid, env.written);
      ghost var row := Row(last, sample);
      SampleAppend(before, row, armedAt, |userdAddresses|, rounds - 1);
      sampled := number != 0;
    }

    /** The new last row is the next sample, loaded twice from the armed addresses. */
    twostate predicate Sampled(kind: SampleKind, tag: string, index: nat, api: Api, env: Env)
      reads this
    {
      && !failed && rounds == old(rounds) + 1 && last == old(last) + 1 && log != [] && log[..|log| - 1] == old(log)
      && var row := log[|log| - 1];
      && row.seqNo == last && row.record.Sample?
      && row.record.kind == kind && row.record.tag == tag && row.record.index == index && row.record.api == api
      && row.record.round == old(rounds)
      && ReadFrom(row.record.before, userdAddresses, env.memory, 0)
      && ReadFrom(row.record.after, userdAddresses, env.memory, 1)
    }

    method TakeSample(tag: string, api: Api, env: Env) returns (sampled: bool)
      requires Valid()
      modifies this`last, this`failed, this`log, this`rounds
      ensures Valid() && (old(failed) ==> failed) && old(log) <= log
      ensures sampled == (PlainLabel(tag) && old(CanSample(env)))
      ensures sampled ==> Sampled(if ringAddress != 0 then RingProgress else UserdSample, tag, 0, api, env)
      ensures sampled ==> log[|log| - 1].record.rings == []
      ensures recording && PlainLabel(tag) && !sampled ==> failed
      ensures !recording || !PlainLabel(tag) ==> !sampled && unchanged(this)
    {
      var span := LabelSpan(tag);
      if !recording || span != |tag| {
        return false;
      }
      var before, after := ReadTwice(userdAddresses, env.memory);
      var kind := if ringAddress != 0 then RingProgress else UserdSample;
      sampled := LogSample(Sample(kind, tag, 0, rounds, api, before, [], after), true, env);
    }

    /** Also reads the armed ring, every entry twice. */
    method TakeRingSample(tag: string, index: nat, api: Api, env: Env) returns (sampled: bool)
      requires Valid()
      modifies this`last, this`failed, this`log, this`rounds
      ensures Valid() && (old(failed) ==> failed) && old(log) <= log
      ensures sampled == (PlainLabel(tag) && ringAddress != 0 && old(CanSample(env)))
      ensures sampled ==> ringAddress != 0 && Sampled(RingSample, tag, index, api, env)
      ensures sampled ==> ReadsRings(log[|log| - 1].record.rings, [ringAddress], [ringEntries], env.words)
      ensures recording && PlainLabel(tag) && !sampled ==> failed
      ensures !recording || !PlainLabel(tag) ==> !sampled && unchanged(this)
    {
      var span := LabelSpan(tag);
      if !recording || span != |tag| {
        return false;
      }
      var before := ReadChannels(userdAddresses, env.memory, 0);
      var rings := ReadRings([ringAddress], [ringEntries], env.words);
      var after := ReadChannels(userdAddresses, env.memory, 1);
      sampled := LogSample(Sample(RingSample, tag, index, rounds, api, before, rings, after), ringAddress != 0, env);
    }

    /** Also reads every armed ring, and hands out the PUT values of the second pass. */
    method TakeRingSetSample(tag: string, index: nat, env: Env) returns (sampled: bool, puts: seq<bv32>)
      requires Valid()
      modifies this`last, this`failed, this`log, this`rounds
      ensures Valid() && (old(failed) ==> failed) && old(log) <= log
      ensures sampled == (PlainLabel(tag) && ringAddresses != [] && old(CanSample(env)))
      ensures sampled ==> ringAddresses != [] && Sampled(RingSetSample, tag, index, Api(0, 0, -1), env)
      ensures sampled ==> ReadsRings(log[|log| - 1].record.rings, ringAddresses, ringCounts, env.words)
      ensures sampled ==>
                && |puts| == |userdAddresses|
                && forall i :: 0 <= i < |puts| ==> puts[i] == env.memory(1, userdAddresses[i]).put
      ensures recording && PlainLabel(tag) && !sampled ==> failed
      ensures !recording || !PlainLabel(tag) ==> !sampled && unchanged(this)
    {
      hide ReadsRing, Window, Unbroken, UsableBlocks, Consecutive, PlainLabel;
      puts := [];
      var span := LabelSpan(tag);
      if !recording || span != |tag| {
        return false, puts;
      }
      var before := ReadChannels(userdAddresses, env.memory, 0);
      var rings := ReadRings(ringAddresses, ringCounts, env.words);
      var after := ReadChannels(userdAddresses, env.memory, 1);
      sampled := LogSample(Sample(RingSetSample, tag, index, rounds, NO_API, before, rings, after), ringAddresses != [], env);
      if sampled {
        puts := seq(|after|, i requires 0 <= i < |after| => after[i].counters.put);
      }
    }

    /** Which kind of window is being closed. */
    function FinishTag(): string
      reads this
    {
      if ringAddresses != [] then "graph_reads_finished"
      else if ringAddress != 0 then "ring_reads_finished"
      else "reads_finished"
    }

    /** Closes the window. A positive result is a promise about the log: between
        the armed row and the closing mark it holds exactly that many samples,
        numbered from 0, each with two readings per channel, and only marks besides. */
    method FinishReads(pid: int, written: bool) returns (samples: nat)
      requires Valid()
      modifies this`last, this`failed, this`log, this`readsArmed
      ensures Valid() && (old(failed) ==> failed) && old(log) <= log
      ensures if old(!readsArmed || failed || owner != pid) then samples == 0 && unchanged(this)
              else !readsArmed && (samples > 0 || rounds == 0 || failed)
      ensures samples > 0 <==>
                written && old(readsArmed && !failed && owner == pid && logOpen && last < 20000 && rounds > 0)
      ensures samples > 0 ==>
                var tag := if ringAddresses != [] then "graph_reads_finished"
                           else if ringAddress != 0 then "ring_reads_finished" else "reads_finished";
                && old(readsArmed) && !readsArmed && !failed && samples == rounds <= 256
                && |log| == |old(log)| + 1 && log[..|log| - 1] == old(log) && armedAt <= |log| - 1
                && log[|log| - 1] == Row(|log|, Record.Mark(tag)) && |log| == last
                && Consecutive(log)
                && Window(log[armedAt..|log| - 1], |userdAddresses|, samples)
    {
      if !readsArmed || failed || owner != pid {
        return 0;
      }
      ghost var before := log;
      readsArmed := false;
      var tag := FinishTag();
      var number := Emit(Record.Mark(tag), pid, written);
      ghost var row := Row(last, Record.Mark(tag));
      UnbrokenAppend(before, row);
      assert number != 0 ==> log[armedAt..|log| - 1] == before[armedAt..];
      samples := if number != 0 then rounds else 0;
    }

    /** A mark inside a window leaves it intact. */
    ghost method Extended(before: seq<Row>)
      requires before <= log && |log| <= |before| + 1 && Unbroken(before)
      requires |log| > |before| ==> log[|before|].record.Mark?
      ensures Unbroken(log)
      ensures readsArmed && armedAt <= |before| && Window(before[armedAt..], |userdAddresses|, rounds) ==>
                armedAt <= |log| && Window(log[armedAt..], |userdAddresses|, rounds)
    {
      if |log| > |before| {
        var row := log[|before|];
        assert log == before + [row];
        UnbrokenAppend(before, row);
        if readsArmed && armedAt <= |before| && Window(before[armedAt..], |userdAddresses|, rounds) {
          WindowAppend(before[armedAt..], row, |userdAddresses|, rounds);
          assert log[armedAt..] == before[armedAt..] + [row];
        }
      } else {
        assert log == before;
      }
    }
  }
}
