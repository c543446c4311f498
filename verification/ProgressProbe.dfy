/** The progress probe, which takes the bounded USERD samples, against the
    validator that accepts or rejects the recorded samples. */
module ProgressProbe {
  import opened Results

  const MAX_ROUNDS: nat := 256
  const WINDOW_NS: int := 3000000000
  const SUCCESS: int := 0
  const NOT_READY: int := 600
  const MAX_U32: int := 0xffff_ffff
  const WINDOW: nat := 8
  const HEAD_LENGTH: nat := 21
  const TAIL_LENGTH: nat := 10

  type U32 = x: int | 0 <= x <= 0xffff_ffff

  /** GET and PUT of one channel, each loaded twice. */
  datatype ChannelRead = ChannelRead(ordinal: nat, beginNs: int, endNs: int, words: seq<int>)

  /** The labels of the samples. */
  datatype Tag =
    | IdleBefore | BeforeBeginEvent | AfterBeginEvent | BeforeLaunch | AfterLaunch | LaunchNoApi
    | AfterEndEvent | EventQuery | AfterElapsedTime | AfterDtoh | IdleAfter

  datatype Sample = Sample(
    tag: Tag, round: nat, apiBegin: int, apiEnd: int, apiResult: int,
    beginNs: int, endNs: int, channels: seq<ChannelRead>)

  // ----- The validator

  const API_TAGS := {AfterBeginEvent, AfterLaunch, AfterEndEvent, EventQuery, AfterElapsedTime, AfterDtoh}

  /** The sample follows a CUDA call. */
  predicate ApiTag(tag: Tag) {
    tag != IdleBefore && tag != BeforeBeginEvent && tag != BeforeLaunch && tag != LaunchNoApi && tag != IdleAfter
  }

  predicate BracketOk(s: Sample) {
    if ApiTag(s.tag) then 0 < s.apiBegin <= s.apiEnd <= s.beginNs else s.apiBegin == s.apiEnd == 0
  }

  predicate ResultOk(tag: Tag, apiResult: int) {
    ApiTag(tag) ==> apiResult == 0 || (tag == EventQuery && apiResult == 600)
  }

  function EndBefore(channels: seq<ChannelRead>, i: nat, start: int): int
    requires i <= |channels|
  {
    if i == 0 then start else channels[i - 1].endNs
  }

  predicate ChannelOk(c: ChannelRead, ordinal: nat, start: int, end: int) {
    && c.ordinal == ordinal && start <= c.beginNs <= c.endNs <= end
    && forall w :: w in c.words ==> 0 <= w <= 0xffff_ffff
  }

  predicate ChannelsOk(s: Sample, channels: nat) {
    && |s.channels| == channels
    && forall i :: 0 <= i < channels ==> ChannelOk(s.channels[i], i, EndBefore(s.channels, i, s.beginNs), s.endNs)
  }

  function PreviousEnd(samples: seq<Sample>, i: nat): int
    requires i <= |samples|
  {
    if i == 0 then 0 else samples[i - 1].endNs
  }

  predicate SampleOk(samples: seq<Sample>, i: nat, channels: nat)
    requires i < |samples|
  {
    var s := samples[i];
    && PreviousEnd(samples, i) <= s.beginNs <= s.endNs
    && BracketOk(s) && ResultOk(s.tag, s.apiResult) && ChannelsOk(s, channels)
  }

  /** The fixed tags before the completion queries, and after them. */
  function HeadTag(i: nat): Tag {
    if i < 8 then IdleBefore
    else if i == 8 then BeforeBeginEvent
    else if i == 9 then AfterBeginEvent
    else if i == 10 then BeforeLaunch
    else if i == 11 then AfterLaunch
    else if i < 20 then LaunchNoApi
    else AfterEndEvent
  }

  predicate HeadTags(samples: seq<Sample>) {
    forall i :: 0 <= i < |samples| ==> samples[i].tag == HeadTag(i)
  }

  function TailTag(i: nat): Tag {
    if i == 0 then AfterElapsedTime else if i == 1 then AfterDtoh else IdleAfter
  }

  /** The tag a sample at position i must carry when `n` samples were taken. */
  function TagAt(i: nat, n: nat): Tag {
    if i < HEAD_LENGTH then HeadTag(i)
    else if i + TAIL_LENGTH < n then EventQuery
    else TailTag(i + TAIL_LENGTH - n)
  }

  predicate Tagged(samples: seq<Sample>, i: nat, n: nat)
    requires i < |samples|
  {
    samples[i].tag == TagAt(i, n) && samples[i].round == i
  }

  /** Only the last query reports completion. */
  predicate QueryOk(samples: seq<Sample>, i: nat)
    requires i < |samples|
  {
    samples[i].apiResult == if i + 11 == |samples| then 0 else 600
  }

  predicate Accepted(samples: seq<Sample>, channels: nat) {
    && 31 < |samples| <= 256
    && samples[|samples| - 1].endNs - samples[0].beginNs < 3_000_000_000
    && (forall i :: 0 <= i < |samples| ==> Tagged(samples, i, |samples|))
    && (forall i :: 21 <= i < |samples| - 10 ==> QueryOk(samples, i))
    && forall i :: 0 <= i < |samples| ==> SampleOk(samples, i, channels)
  }

  method ValidateSamples(samples: seq<Sample>, channels: nat) returns (accepted: bool)
    ensures accepted == Accepted(samples, channels)
  {
    hide TagAt, SampleOk, Tagged;
    var n := |samples|;
    if !(0 < n <= MAX_ROUNDS) {
      return false;
    }
    if exists i :: 0 <= i < n && samples[i].round != i {
      Mistagged(samples);
      return false;
    }
    if samples[n - 1].endNs - samples[0].beginNs >= WINDOW_NS || n <= HEAD_LENGTH + TAIL_LENGTH {
      return false;
    }
    if exists i :: 0 <= i < n && samples[i].tag != TagAt(i, n) {
      Mistagged(samples);
      return false;
    }
    Mistagged(samples);
    Answered(samples);
    if exists i :: HEAD_LENGTH <= i < n - TAIL_LENGTH - 1 && samples[i].apiResult != NOT_READY {
      return false;
    }
    if samples[n - TAIL_LENGTH - 1].apiResult != SUCCESS {
      return false;
    }
    var previous := 0;
    for k := 0 to n
      invariant previous == PreviousEnd(samples, k)
      invariant forall i :: 0 <= i < k ==> SampleOk(samples, i, channels)
    {
      var fields := ValidateSample(samples, k, previous, channels);
      if !fields {
        return false;
      }
      previous := samples[k].endNs;
    }
    return true;
  }

  lemma Mistagged(samples: seq<Sample>)
    ensures (forall i :: 0 <= i < |samples| ==> Tagged(samples, i, |samples|))
       <==> forall i :: 0 <= i < |samples| ==> samples[i].round == i && samples[i].tag == TagAt(i, |samples|)
  {
    hide TagAt;
    if forall i :: 0 <= i < |samples| ==> Tagged(samples, i, |samples|) {
      forall i | 0 <= i < |samples| ensures samples[i].round == i && samples[i].tag == TagAt(i, |samples|) {
        assert Tagged(samples, i, |samples|);
      }
    }
  }

  lemma Answered(samples: seq<Sample>)
    requires 31 < |samples|
    ensures (forall i :: 21 <= i < |samples| - 10 ==> QueryOk(samples, i))
       <==> samples[|samples| - 11].apiResult == 0 && forall i :: 21 <= i < |samples| - 11 ==> samples[i].apiResult == 600
  {
    if forall i :: 21 <= i < |samples| - 10 ==> QueryOk(samples, i) {
      forall i | 21 <= i < |samples| - 10 ensures samples[i].apiResult == if i == |samples| - 11 then 0 else 600 {
        assert QueryOk(samples, i);
      }
    }
  }

  /** One round of the validator's loop. */
  method ValidateSample(samples: seq<Sample>, k: nat, previous: int, channels: nat) returns (accepted: bool)
    requires k < |samples| && previous == PreviousEnd(samples, k)
    ensures accepted == SampleOk(samples, k, channels)
  {
    hide ChannelsOk;
    var s := samples[k];
    if !(previous <= s.beginNs <= s.endNs) {
      return false;
    }
    if s.tag in API_TAGS {
      if !(0 < s.apiBegin <= s.apiEnd <= s.beginNs) {
        return false;
      }
      if !(s.apiResult in if s.tag == EventQuery then [SUCCESS, NOT_READY] else [SUCCESS]) {
        return false;
      }
    } else if !(s.apiBegin == s.apiEnd == 0) {
      return false;
    }
    accepted := ValidateChannels(s, channels);
  }

  method ValidateChannels(s: Sample, channels: nat) returns (accepted: bool)
    ensures accepted == ChannelsOk(s, channels)
  {
    if |s.channels| != channels {
      return false;
    }
    var end := s.beginNs;
    for i := 0 to channels
      invariant end == EndBefore(s.channels, i, s.beginNs)
      invariant forall k :: 0 <= k < i ==> ChannelOk(s.channels[k], k, EndBefore(s.channels, k, s.beginNs), s.endNs)
    {
      var c := s.channels[i];
      if c.ordinal != i || !(end <= c.beginNs <= c.endNs <= s.endNs) || exists w :: w in c.words && !(0 <= w <= MAX_U32) {
        assert !ChannelOk(c, i, EndBefore(s.channels, i, s.beginNs), s.endNs);
        return false;
      }
      end := c.endNs;
    }
    return true;
  }

  // ----- The probe

  ghost predicate Monotone(clock: nat -> int) {
    && (forall i :: clock(i) > 0)
    && forall i, j :: i <= j ==> clock(i) <= clock(j)
  }

  /** A sample that follows no CUDA call records -1, but for the launch hook's own success. */
  predicate NoCallResult(s: Sample) {
    !ApiTag(s.tag) ==> s.apiResult == if s.tag == BeforeLaunch then 0 else -1
  }

  lemma AppendOk(samples: seq<Sample>, s: Sample, channels: nat)
    requires forall i :: 0 <= i < |samples| ==> samples[i].round == i && SampleOk(samples, i, channels)
    requires PreviousEnd(samples, |samples|) <= s.beginNs <= s.endNs && s.round == |samples|
    requires BracketOk(s) && ResultOk(s.tag, s.apiResult) && ChannelsOk(s, channels)
    ensures var more := samples + [s];
            forall i :: 0 <= i < |more| ==> more[i].round == i && SampleOk(more, i, channels)
  {
    hide BracketOk, ResultOk, ChannelsOk;
    var more := samples + [s];
    forall i | 0 <= i < |more| ensures more[i].round == i && SampleOk(more, i, channels) {
      if i < |samples| {
        assert SampleOk(samples, i, channels) && more[i] == samples[i];
      }
    }
  }

  /** The environment is given by tick: what the clock reads, what a CUDA call
      returns, what a load yields, whether a row is logged. The window is armed at
      tick 0, and its deadline runs from there. */
  class Probe {
    const clock: nat -> int
    const result: nat -> int
    const word: nat -> U32
    const logged: nat -> bool
    const channels: nat
    const deadline: int
    var tick: nat
    var samples: seq<Sample>

    /** What holds between any two clock readings. */
    ghost predicate Sound()
      reads this
    {
      && Monotone(clock) && deadline == clock(0) + WINDOW_NS && 1 <= tick
      && |samples| <= MAX_ROUNDS
      && PreviousEnd(samples, |samples|) <= clock(tick)
      && (samples != [] ==> samples[0].beginNs == clock(2))
      && (forall i :: 0 <= i < |samples| ==> samples[i].round == i && NoCallResult(samples[i]))
      && forall i :: 0 <= i < |samples| ==> SampleOk(samples, i, channels)
    }

    /** Between samples. The first one is taken right after arming. */
    ghost predicate Valid()
      reads this
    {
      Sound() && (samples == [] ==> tick == 1)
    }

    /** Nothing goes wrong before that tick: rows are logged, calls succeed, and the
        deadline has not come. */
    ghost predicate SmoothBefore(end: nat) {
      forall t :: 0 <= t < end ==> logged(t) && result(t) == SUCCESS && clock(t) < deadline
    }

    /** Clock readings of one sample: the deadline check, its begin, two for each
        channel, its end. */
    function SampleTicks(): nat {
      3 + 2 * channels
    }

    function TicksOf(n: nat): nat {
      if n == 0 then 0 else TicksOf(n - 1) + SampleTicks()
    }

    lemma {:induction false} TicksGrow(m: nat, n: nat)
      ensures m <= n ==> TicksOf(m) <= TicksOf(n)
    {
      if m < n {
        TicksGrow(m, n - 1);
      }
    }

    lemma WindowTicks()
      ensures TicksOf(7) == 7 * SampleTicks() && TicksOf(WINDOW) == 8 * SampleTicks()
    {
      hide SampleTicks;
      assert TicksOf(2) == 2 * SampleTicks();
      assert TicksOf(4) == 4 * SampleTicks();
      assert TicksOf(6) == 6 * SampleTicks();
    }

    constructor (clock: nat -> int, result: nat -> int, word: nat -> U32, logged: nat -> bool, channels: nat)
      requires Monotone(clock)
      ensures Valid() && samples == [] && deadline == clock(0) + 3_000_000_000
      ensures this.clock == clock && this.result == result && this.word == word && this.logged == logged
      ensures this.channels == channels
    {
      this.clock, this.result, this.word, this.logged := clock, result, word, logged;
      this.channels, this.deadline := channels, clock(0) + WINDOW_NS;
      tick, samples := 1, [];
    }

    method Now() returns (t: int)
      modifies this`tick
      ensures t == clock(old(tick)) && tick == old(tick) + 1
      ensures old(Sound()) ==> Sound()
    {
      hide SampleOk;
      t := clock(tick);
      tick := tick + 1;
    }

    /** The four words channel `i` yields when its sample's begin was read at tick `start`:
        the loads behind the channel's first clock reading. */
    function WordsAt(start: nat, i: nat): seq<U32> {
      var t := start + 3 + 2 * i;
      [word(t), word(t + 1), word(t + 2), word(t + 3)]
    }

    predicate LoadedFrom(loads: seq<ChannelRead>, start: nat) {
      |loads| == channels && forall i :: 0 <= i < channels ==> loads[i].words == WordsAt(start, i)
    }

    method ReadChannels(begin: int) returns (loads: seq<ChannelRead>)
      requires Monotone(clock) && begin <= clock(tick) && tick > 0
      modifies this`tick
      ensures LoadedFrom(loads, old(tick) - 1)
      ensures |loads| == channels && tick == old(tick) + 2 * channels
      ensures forall i :: 0 <= i < channels ==> ChannelOk(loads[i], i, EndBefore(loads, i, begin), clock(tick))
    {
      hide WordsAt, Sound, Monotone;
      loads := [];
      var start := tick - 1;
      for i := 0 to channels
        invariant |loads| == i && tick == old(tick) + 2 * i
        invariant forall k :: 0 <= k < i ==> loads[k].words == WordsAt(start, k)
        invariant EndBefore(loads, i, begin) <= clock(tick)
        invariant forall k :: 0 <= k < i ==> ChannelOk(loads[k], k, EndBefore(loads, k, begin), clock(tick))
      {
        var t0 := Now();
        var t1 := Now();
        Rising(tick - 2, tick - 1);
        Rising(tick - 1, tick);
        loads := loads + [ChannelRead(i, t0, t1, WordsAt(start, i))];
      }
    }

    lemma Rising(i: nat, j: nat)
      requires Monotone(clock) && i <= j
      ensures 0 < clock(i) <= clock(j)
    {
    }

    lemma SoundRises(i: nat, j: nat)
      requires Sound() && i <= j
      ensures 0 < clock(i) <= clock(j)
    {
      Rising(i, j);
    }

    /** A sample with its own clock readings and its channels'. */
    method Take(tag: Tag, round: nat, apiBegin: int, apiEnd: int, apiResult: int) returns (s: Sample)
      requires Sound()
      requires if ApiTag(tag) then 0 < apiBegin <= apiEnd <= clock(tick) else apiBegin == apiEnd == 0
      modifies this`tick
      ensures tick == old(tick) + 2 + 2 * channels
      ensures s.tag == tag && s.round == round
      ensures s.apiBegin == apiBegin && s.apiEnd == apiEnd && s.apiResult == apiResult
      ensures s.beginNs == clock(old(tick)) <= s.endNs == clock(tick - 1)
      ensures BracketOk(s) && ChannelsOk(s, channels) && LoadedFrom(s.channels, old(tick))
      ensures Sound() && PreviousEnd(samples, |samples|) <= s.beginNs && s.endNs <= clock(tick)
    {
      hide Monotone, ApiTag, ChannelOk, SampleOk, WordsAt;
      var begin := Now();
      Rising(tick - 1, tick);
      var loads := ReadChannels(begin);
      Rising(old(tick), tick);
      var end := Now();
      Rising(tick - 1, tick);
      s := Sample(tag, round, apiBegin, apiEnd, apiResult, begin, end, loads);
    }

    /** One sample. It is refused exactly when the rounds are used up, the clock has
        reached the deadline, or the row is not logged. */
    method Read(tag: Tag, apiBegin: int, apiEnd: int, apiResult: int) returns (ok: bool)
      requires Valid()
      requires if ApiTag(tag) then 0 < apiBegin <= apiEnd <= clock(tick) else apiBegin == apiEnd == 0
      requires samples == [] ==> !ApiTag(tag)
      requires !ApiTag(tag) ==> apiResult == if tag == BeforeLaunch then 0 else -1
      modifies this
      ensures ok == (|old(samples)| < 256 && clock(old(tick)) < deadline && logged(old(tick) + 1))
      ensures !ok ==> samples == old(samples)
      ensures ok ==> |samples| == |old(samples)| + 1 && samples[..|samples| - 1] == old(samples)
      ensures ok ==>
                var last := samples[|samples| - 1];
                && last.tag == tag && last.round == |old(samples)|
                && last.apiBegin == apiBegin && last.apiEnd == apiEnd && last.apiResult == apiResult
                && tick == old(tick) + SampleTicks() && tick > 0
                && last.beginNs == clock(old(tick) + 1) && last.endNs == clock(tick - 1)
                && LoadedFrom(last.channels, old(tick) + 1)
      ensures ok && ResultOk(tag, apiResult) ==> Valid()
    {
      hide ResultOk, ApiTag, Sound, ChannelsOk, BracketOk, Monotone, PreviousEnd, LoadedFrom;
      var check := Now();
      if |samples| >= MAX_ROUNDS || check >= deadline || !logged(tick) {
        return false;
      }
      SoundRises(tick - 1, tick);
      var s := Take(tag, |samples|, apiBegin, apiEnd, apiResult);
      Keep(s);
      return true;
    }

    method Keep(s: Sample)
      requires Sound() && |samples| < MAX_ROUNDS && s.round == |samples|
      requires PreviousEnd(samples, |samples|) <= s.beginNs <= s.endNs <= clock(tick)
      requires samples == [] ==> s.beginNs == clock(2)
      requires BracketOk(s) && ChannelsOk(s, channels) && NoCallResult(s)
      modifies this`samples
      ensures samples == old(samples) + [s]
      ensures ResultOk(s.tag, s.apiResult) ==> Valid()
    {
      hide ResultOk, ApiTag, SampleOk, ChannelsOk, BracketOk, Monotone;
      if ResultOk(s.tag, s.apiResult) {
        AppendOk(samples, s, channels);
      }
      samples := samples + [s];
    }

    /** A timed CUDA call, recorded whatever it returned; only success goes on. */
    method Call(tag: Tag) returns (ok: bool)
      requires Valid() && ApiTag(tag) && tag != EventQuery && samples != []
      modifies this
      ensures ok ==> Valid() && |samples| == |old(samples)| + 1 && samples[..|samples| - 1] == old(samples)
      ensures ok ==> samples[|samples| - 1].tag == tag
      ensures SmoothBefore(old(tick) + 4) && |old(samples)| < MAX_ROUNDS ==> ok && tick == old(tick) + SampleTicks() + 2
    {
      hide SampleOk, SampleTicks, Monotone;
      var begin := Now();
      var returned := result(tick);
      var end := Now();
      Rising(tick - 2, tick - 1);
      Rising(tick - 1, tick);
      ok := Read(tag, begin, end, returned);
      ok := ok && returned == SUCCESS;
    }

    /** Eight samples with no CUDA call in between. */
    method Window(tag: Tag) returns (ok: bool)
      requires Valid() && !ApiTag(tag) && tag != BeforeLaunch
      modifies this
      ensures ok ==> Valid() && |samples| == |old(samples)| + WINDOW && samples[..|old(samples)|] == old(samples)
      ensures ok ==> forall i :: |old(samples)| <= i < |samples| ==> samples[i].tag == tag
      ensures ok ==> samples[|samples| - 1].endNs == clock(tick - 1)
      ensures SmoothBefore(old(tick) + 7 * SampleTicks() + 2) && |old(samples)| + WINDOW <= MAX_ROUNDS ==>
                ok && tick == old(tick) + 8 * SampleTicks()
    {
      hide Sound, SampleTicks;
      WindowTicks();
      ok := true;
      for i := 0 to WINDOW
        invariant Valid() && ok && |samples| == |old(samples)| + i && samples[..|old(samples)|] == old(samples)
        invariant forall k :: |old(samples)| <= k < |samples| ==> samples[k].tag == tag
        invariant i > 0 ==> tick > 0 && samples[|samples| - 1].endNs == clock(tick - 1)
        invariant tick == old(tick) + TicksOf(i)
      {
        ghost var before := samples;
        TicksGrow(i, 7);
        ok := Read(tag, 0, 0, -1);
        if !ok {
          return false;
        }
        assert forall k :: 0 <= k < |before| ==> samples[k] == before[k];
      }
    }

    /** One completion query, recorded; the caller looks at what it returned. */
    method Query() returns (ok: bool, returned: int)
      requires Valid() && samples != []
      modifies this
      ensures ok ==> |samples| == |old(samples)| + 1 && samples[..|samples| - 1] == old(samples)
      ensures ok ==> samples[|samples| - 1].tag == EventQuery && samples[|samples| - 1].apiResult == returned
      ensures ok ==> |old(samples)| < MAX_ROUNDS
      ensures ok && (returned == SUCCESS || returned == NOT_READY) ==> Valid()
      ensures SmoothBefore(old(tick) + 4) && |old(samples)| < MAX_ROUNDS ==>
                ok && returned == SUCCESS && tick == old(tick) + SampleTicks() + 2
    {
      hide SampleOk, SampleTicks, Monotone;
      var begin := Now();
      returned := result(tick);
      var end := Now();
      Rising(tick - 2, tick - 1);
      Rising(tick - 1, tick);
      ok := Read(EventQuery, begin, end, returned);
    }

    /** From index `start` on, queries; all but the last not ready. */
    ghost predicate Queried(start: nat, finished: bool)
      reads this
    {
      forall k :: start <= k < |samples| ==>
        samples[k].tag == EventQuery &&
        samples[k].apiResult == if finished && k == |samples| - 1 then SUCCESS else NOT_READY
    }

    /** Queries until completion, an error, or the query deadline. */
    method Queries(timeout: int) returns (ok: bool)
      requires Valid() && samples != []
      modifies this
      ensures ok ==> Valid() && |samples| > |old(samples)| && samples[..|old(samples)|] == old(samples)
      ensures ok ==> Queried(|old(samples)|, true)
      ensures SmoothBefore(old(tick) + 5) && |old(samples)| < MAX_ROUNDS ==>
                ok && |samples| == |old(samples)| + 1 && tick == old(tick) + SampleTicks() + 3
    {
      hide Sound, SampleTicks;
      var start := Now();
      var limit := start + timeout;
      while true
        invariant Valid() && |samples| >= |old(samples)| && samples[..|old(samples)|] == old(samples)
        invariant Queried(|old(samples)|, false)
        invariant SmoothBefore(old(tick) + 5) && |old(samples)| < MAX_ROUNDS ==>
                    samples == old(samples) && tick == old(tick) + 1
        decreases MAX_ROUNDS - |samples|
      {
        ghost var before := samples;
        var returned;
        ok, returned := Query();
        if !ok {
          return;
        }
        assert forall k :: 0 <= k < |before| ==> samples[k] == before[k];
        if returned == SUCCESS {
          return true;
        }
        if returned != NOT_READY {
          return false;
        }
        var now := Now();
        if now >= limit {
          return false;
        }
      }
    }

    /** Idle samples, the begin event, and the sample right before the launch. */
    method Prelude() returns (ok: bool)
      requires Valid() && samples == []
      modifies this
      ensures ok ==> Valid() && |samples| == 11 && HeadTags(samples)
      ensures SmoothBefore(old(tick) + 10 * SampleTicks() + 4) ==> ok && tick == old(tick) + 11 * SampleTicks() + 2
    {
      hide Sound, SampleTicks;
      ok := Window(IdleBefore);
      if !ok { return; }
      ghost var s0 := samples;
      ok := Read(BeforeBeginEvent, 0, 0, -1);
      if !ok { return; }
      ghost var s1 := samples;
      ok := Call(AfterBeginEvent);
      if !ok { return; }
      ghost var s2 := samples;
      ok := Read(BeforeLaunch, 0, 0, SUCCESS);
      assert ok ==> s0 <= s1 <= s2 <= samples;
    }

    /** The launch, a window without CUDA calls, and the end event. */
    method Launch() returns (ok: bool)
      requires Valid() && |samples| == 11 && HeadTags(samples)
      modifies this
      ensures ok ==> Valid() && |samples| == HEAD_LENGTH && HeadTags(samples)
      ensures SmoothBefore(old(tick) + 9 * SampleTicks() + 6) ==> ok && tick == old(tick) + 10 * SampleTicks() + 4
    {
      hide Sound, SampleTicks;
      ghost var s0 := samples;
      ok := Call(AfterLaunch);
      if !ok { return; }
      ghost var s1 := samples;
      ok := Window(LaunchNoApi);
      if !ok { return; }
      ghost var s2 := samples;
      ok := Call(AfterEndEvent);
      assert ok ==> s0 <= s1 <= s2 <= samples;
    }

    method Head() returns (ok: bool)
      requires Valid() && samples == []
      modifies this
      ensures ok ==> Valid() && |samples| == HEAD_LENGTH && HeadTags(samples)
      ensures SmoothBefore(old(tick) + 20 * SampleTicks() + 8) ==> ok && tick == old(tick) + 21 * SampleTicks() + 6
    {
      hide Sound, SampleTicks;
      ok := Prelude();
      if ok {
        ok := Launch();
      }
    }

    method Tail() returns (ok: bool)
      requires Valid() && samples != []
      modifies this
      ensures ok ==> Valid() && |samples| == |old(samples)| + TAIL_LENGTH && samples[..|old(samples)|] == old(samples)
      ensures ok ==> forall i :: 0 <= i < TAIL_LENGTH ==> samples[|old(samples)| + i].tag == TailTag(i)
      ensures ok ==> samples[|samples| - 1].endNs == clock(tick - 1)
      ensures SmoothBefore(old(tick) + 9 * SampleTicks() + 6) && |old(samples)| + TAIL_LENGTH <= MAX_ROUNDS ==>
                ok && tick == old(tick) + 10 * SampleTicks() + 4
    {
      hide Sound, SampleTicks;
      ghost var s0 := samples;
      ok := Call(AfterElapsedTime);
      if !ok { return; }
      ghost var s1 := samples;
      ok := Call(AfterDtoh);
      if !ok { return; }
      ghost var s2 := samples;
      ok := Window(IdleAfter);
      assert ok ==> s0 <= s1 <= s2 <= samples;
    }

    lemma StartsSound()
      requires Valid() && samples == []
      ensures Monotone(clock) && deadline == clock(0) + WINDOW_NS && tick == 1
    {
    }

    lemma SamplesSound()
      requires Valid() && samples != []
      ensures |samples| <= MAX_ROUNDS && samples[0].beginNs == clock(2) && 1 <= tick
      ensures forall i :: 0 <= i < |samples| ==>
                samples[i].round == i && SampleOk(samples, i, channels) && NoCallResult(samples[i])
    {
    }

    /** Whatever the clock, the results and the loads were, and however many
        queries it took: a completed run has 31 samples besides the queries, and
        is accepted exactly when it also ended inside the time budget; so it is
        accepted if its last sample ended before the deadline. If nothing goes
        wrong before the last sample it completes, with one query. */
    method Run(timeout: int) returns (completed: bool, queries: nat)
      requires Valid() && samples == []
      modifies this
      ensures completed ==> queries > 0 && |samples| == 31 + queries <= 256
      ensures completed ==>
                && tick > 0 && samples[0].beginNs == clock(2) && samples[|samples| - 1].endNs == clock(tick - 1)
                && (Accepted(samples, channels) <==> samples[|samples| - 1].endNs - samples[0].beginNs < 3_000_000_000)
                && (samples[|samples| - 1].endNs < deadline ==> Accepted(samples, channels))
      ensures SmoothBefore(31 * SampleTicks() + 16) ==>
                completed && queries == 1 && tick == 32 * SampleTicks() + 14
      ensures completed ==> forall i :: 0 <= i < |samples| ==> NoCallResult(samples[i])
    {
      hide Accepted, SampleOk, HeadTag, TailTag, SampleTicks, Monotone, Sound, NoCallResult;
      StartsSound();
      queries := 0;
      completed := Head();
      if !completed { return; }
      ghost var head := samples;
      completed := Queries(timeout);
      if !completed { return; }
      ghost var middle := samples;
      queries := |samples| - HEAD_LENGTH;
      completed := Tail();
      if !completed { return; }
      assert head <= middle <= samples;
      SamplesSound();
      CompletedIsAccepted(samples, |head|, |middle|, channels);
      Rising(0, 2);
    }
  }

  /** A run on one channel that passes every deadline check, completes, and is rejected:
      the clock jumps while the last sample is being taken. */
  method CompletedButRejected() returns (probe: Probe, completed: bool)
    ensures fresh(probe) && completed && probe.deadline == probe.clock(0) + WINDOW_NS && 1 <= probe.channels <= 32
    ensures !Accepted(probe.samples, probe.channels)
  {
    hide Accepted;
    var clock := (t: nat) => if t < 171 then t + 1 else 4000000000;
    probe := new Probe(clock, _ => SUCCESS, _ => 0, _ => true, 1);
    assert probe.SmoothBefore(171);
    var queries;
    completed, queries := probe.Run(0);
  }

  lemma CompletedIsAccepted(samples: seq<Sample>, head: nat, middle: nat, channels: nat)
    requires head == HEAD_LENGTH < middle && |samples| == middle + TAIL_LENGTH <= MAX_ROUNDS
    requires forall i :: 0 <= i < head ==> samples[i].tag == HeadTag(i)
    requires forall i :: head <= i < middle ==>
               samples[i].tag == EventQuery && samples[i].apiResult == if i == middle - 1 then SUCCESS else NOT_READY
    requires forall i :: 0 <= i < TAIL_LENGTH ==> samples[middle + i].tag == TailTag(i)
    requires forall i :: 0 <= i < |samples| ==> samples[i].round == i && SampleOk(samples, i, channels)
    ensures Accepted(samples, channels) <==> samples[|samples| - 1].endNs - samples[0].beginNs < WINDOW_NS
  {
    hide HeadTag, TailTag, SampleOk;
    forall i | 0 <= i < |samples| ensures Tagged(samples, i, |samples|) {
      if middle <= i {
        assert samples[middle + (i - middle)].tag == TailTag(i - middle);
      }
    }
  }
}
