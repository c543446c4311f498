/** The progress probe's samples as rows of the observer's log: both models of one
    read, kept in step. */
module ProgressWindow {
  import opened Observer
  import Probing = ProgressProbe

  function LabelOf(tag: Probing.Tag): string {
    match tag
    case IdleBefore => "idle_before"
    case BeforeBeginEvent => "before_begin_event"
    case AfterBeginEvent => "after_begin_event"
    case BeforeLaunch => "before_launch"
    case AfterLaunch => "after_launch"
    case LaunchNoApi => "launch_no_api"
    case AfterEndEvent => "after_end_event"
    case EventQuery => "event_query"
    case AfterElapsedTime => "after_elapsed_time"
    case AfterDtoh => "after_dtoh"
    case IdleAfter => "idle_after"
  }

  lemma LabelIsPlain(tag: Probing.Tag)
    ensures PlainLabel(LabelOf(tag))
  {
  }

  /** Both loads of a channel, in the order in which they were made. */
  function Words(first: Counters, second: Counters): seq<int> {
    [first.get as int, first.put as int, second.get as int, second.put as int]
  }

  /** The row records the sample, but for its clock readings. */
  predicate Records(record: Record, s: Probing.Sample) {
    && record.Sample? && record.kind == UserdSample && record.tag == LabelOf(s.tag) && record.index == 0
    && record.round == s.round && record.rings == []
    && record.api.begin == s.apiBegin && record.api.end == s.apiEnd && record.api.result == s.apiResult
    && |record.before| == |record.after| == |s.channels|
    && forall i :: 0 <= i < |s.channels| ==>
         s.channels[i].words == Words(record.before[i].counters, record.after[i].counters)
  }

  /** Behind `start` rows the log holds the probe's samples, and the observer would
      take the next one under the same number and deadline. */
  ghost predicate InStep(p: Probing.Probe, o: State, start: nat)
    reads p, o
  {
    && p.Valid() && o.Valid() && o.recording && o.logOpen && o.readsArmed && !o.failed && o.ringAddress == 0
    && o.rounds == |p.samples| && o.deadline == p.deadline && |o.userdAddresses| == p.channels
    && |o.log| == start + |p.samples|
    && forall i :: 0 <= i < |p.samples| ==> Records(o.log[start + i].record, p.samples[i])
  }

  /** The observer's next entry meets what the probe's next read meets. */
  ghost predicate SameWorld(p: Probing.Probe, o: State, env: Env)
    reads p, o
  {
    && env.pid == o.owner && env.now == p.clock(p.tick)
    && (env.written && o.last < MAX_ROWS <==> p.logged(p.tick + 1))
    && |o.userdAddresses| == p.channels
    && forall i :: 0 <= i < p.channels ==>
         p.WordsAt(p.tick + 1, i) == Words(env.memory(0, o.userdAddresses[i]), env.memory(1, o.userdAddresses[i]))
  }

  /** One read, in the probe's model and through the observer: both take it or both
      refuse it, and the row records the sample. */
  method ReadBoth(p: Probing.Probe, o: State, tag: Probing.Tag, apiBegin: nat, apiEnd: nat, apiResult: int, env: Env,
                  ghost start: nat) returns (ok: bool)
    requires InStep(p, o, start) && SameWorld(p, o, env)
    requires if Probing.ApiTag(tag) then 0 < apiBegin <= apiEnd <= p.clock(p.tick) else apiBegin == apiEnd == 0
    requires p.samples == [] ==> !Probing.ApiTag(tag)
    requires !Probing.ApiTag(tag) ==> apiResult == if tag == Probing.BeforeLaunch then 0 else -1
    modifies p, o
    ensures ok && Probing.ResultOk(tag, apiResult) ==> InStep(p, o, start) && |p.samples| == |old(p.samples)| + 1
    ensures !ok ==> o.failed && p.samples == old(p.samples)
  {
    hide o.Valid, p.Valid, p.Sound, p.WordsAt, Probing.ApiTag, Probing.ResultOk, PlainLabel, LabelOf, Words;
    LabelIsPlain(tag);
    ok := p.Read(tag, apiBegin, apiEnd, apiResult);
    var sampled := o.TakeSample(LabelOf(tag), Api(apiBegin, apiEnd, apiResult), env);
    assert ok == sampled;
    if ok {
      var s, record := p.samples[|p.samples| - 1], o.log[|o.log| - 1].record;
      assert Records(record, s);
    }
  }

  /** Arming puts them in step, before the first read. */
  method ArmBoth(p: Probing.Probe, o: State, sequence: nat, addresses: seq<nat>, env: Env) returns (armed: bool)
    requires p.Valid() && p.samples == [] && p.channels == |addresses| && p.deadline == p.clock(0) + Probing.WINDOW_NS
    requires o.Valid() && o.logOpen && env.now == p.clock(0)
    modifies o
    ensures armed ==> InStep(p, o, sequence)
  {
    hide o.Valid, p.Valid, UsableBlocks;
    armed := o.ArmReads(sequence, addresses, env.pid, env.now);
  }

  /** Closing them: the observer reports as many samples as the probe has taken. */
  method CloseBoth(p: Probing.Probe, o: State, env: Env, ghost start: nat) returns (samples: nat)
    requires InStep(p, o, start)
    modifies o
    ensures samples > 0 ==> samples == |p.samples| && o.log != [] && o.log[..|o.log| - 1] == old(o.log)
  {
    hide o.Valid, p.Valid, Window;
    samples := o.FinishReads(env.pid, env.written);
  }
}
