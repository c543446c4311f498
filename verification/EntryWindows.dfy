/** The two read windows around measured launches, taken through the observer, and
    the window checks their analyzers make on the rows. */
module EntryWindows {
  import opened Hardware
  import opened Results
  import opened RingInterval
  import opened RingProducer
  import opened Observer

  const PROGRESS: nat := 8

  /** What a row of a window has to be. */
  datatype Want = Want(kind: SampleKind, tag: string, index: nat, api: Api)

  predicate Matches(row: Row, want: Want, round: nat) {
    && row.record.Sample?
    && row.record.kind == want.kind && row.record.tag == want.tag
    && row.record.index == want.index && row.record.api == want.api && row.record.round == round
  }

  /** The rows are these samples, the first of them of round `base`. */
  predicate MatchesFrom(rows: seq<Row>, wants: seq<Want>, base: nat) {
    |rows| == |wants| && forall i :: 0 <= i < |rows| ==> Matches(rows[i], wants[i], base + i)
  }

  predicate MatchesAll(rows: seq<Row>, wants: seq<Want>) {
    MatchesFrom(rows, wants, 0)
  }

  // ----- What the analyzers accept

  /** Kind and label of each sample; a mark or any other row has neither. */
  function Labels(rows: seq<Row>): (labels: seq<Option<(SampleKind, string)>>)
    ensures |labels| == |rows|
    ensures forall i :: 0 <= i < |rows| ==>
              labels[i] == if rows[i].record.Sample? then Some((rows[i].record.kind, rows[i].record.tag)) else None
  {
    seq(|rows|, i requires 0 <= i < |rows| =>
      if rows[i].record.Sample? then Some((rows[i].record.kind, rows[i].record.tag)) else None)
  }

  function LaunchLabels(): (labels: seq<Option<(SampleKind, string)>>)
    ensures |labels| == 11
  {
    [Some((RingSample, "before_launch")), Some((RingSample, "after_launch"))] +
    seq(PROGRESS, _ => Some((RingProgress, "entry_no_api"))) +
    [Some((RingSample, "after_no_api"))]
  }

  function EntryLabels(wrap: bool): seq<Option<(SampleKind, string)>> {
    (if wrap then [Some((RingSample, "before_fill"))] else []) +
    [Some((RingSample, "idle"))] + LaunchLabels() + LaunchLabels()
  }

  predicate IsFrameOf(record: Record, launch: nat) {
    record.Sample? && record.kind == RingSample && record.index == launch
  }

  /** The frames of one launch, in order. */
  function FramesOf(rows: seq<Row>, launch: nat): seq<Record> {
    if rows == [] then []
    else
      FramesOf(rows[..|rows| - 1], launch) +
      if IsFrameOf(rows[|rows| - 1].record, launch) then [rows[|rows| - 1].record] else []
  }

  /** The entry analyzer's checks on the rows between the armed row and the finish
      mark: the labels, the rounds, three frames a launch, of which the second
      carries the call and its success, and no call beside a progress sample. */
  predicate EntryWindowOk(rows: seq<Row>, wrap: bool, calls: seq<Api>) {
    && Labels(rows) == EntryLabels(wrap)
    && |calls| == 2
    && (forall i :: 0 <= i < |rows| ==> rows[i].record.round == i)
    && (forall i :: 0 <= i < |rows| && rows[i].record.kind == RingProgress ==> rows[i].record.api == Api(0, 0, -1))
    && LaunchOk(FramesOf(rows, 1), calls[0]) && LaunchOk(FramesOf(rows, 2), calls[1])
  }

  predicate LaunchOk(frames: seq<Record>, call: Api) {
    |frames| == 3 && frames[1].Sample? && frames[1].api == call && call.result == 0
  }

  /** The analyzer takes the frames of a launch by their place; these labels belong there. */
  predicate InLaunchOrder(frames: seq<Record>) {
    |frames| == 3 && frames[0].Sample? && frames[1].Sample? && frames[2].Sample? &&
    frames[0].tag == "before_launch" && frames[1].tag == "after_launch" && frames[2].tag == "after_no_api"
  }

  /** The analyzer's pass over the window. */
  method CheckEntryWindow(rows: seq<Row>, wrap: bool, calls: seq<Api>) returns (accepted: bool)
    requires |calls| == 2
    ensures accepted <==> EntryWindowOk(rows, wrap, calls)
  {
    hide Labels, FramesOf, LaunchOk;
    var expected := if wrap then [Some((RingSample, "before_fill"))] else [];
    expected := expected + [Some((RingSample, "idle"))];
    ghost var opening := expected;
    for n := 0 to 2
      invariant expected ==
                  opening + if n == 0 then [] else if n == 1 then LaunchLabels() else LaunchLabels() + LaunchLabels()
    {
      var frames := [Some((RingSample, "before_launch")), Some((RingSample, "after_launch"))];
      var gap := seq(8, _ => Some((RingProgress, "entry_no_api")));
      var launch := frames + gap + [Some((RingSample, "after_no_api"))];
      assert launch == LaunchLabels();
      expected := expected + launch;
    }
    assert expected == EntryLabels(wrap);
    if Labels(rows) != expected {
      return false;
    }
    AllSamples(rows, wrap);
    if exists i :: 0 <= i < |rows| && rows[i].record.round != i {
      return false;
    }
    if exists i :: 0 <= i < |rows| && rows[i].record.kind == RingProgress &&
                   !(rows[i].record.api.begin == rows[i].record.api.end == 0 && rows[i].record.api.result == -1) {
      return false;
    }
    var one := Frames(rows, 1);
    var two := Frames(rows, 2);
    var first := CheckLaunch(one, calls[0]);
    var second := CheckLaunch(two, calls[1]);
    accepted := first && second;
  }

  lemma AllSamples(rows: seq<Row>, wrap: bool)
    requires Labels(rows) == EntryLabels(wrap)
    ensures forall i :: 0 <= i < |rows| ==> rows[i].record.Sample?
  {
    assert forall i :: 0 <= i < |EntryLabels(wrap)| ==> EntryLabels(wrap)[i].Some?;
  }

  method CheckLaunch(frames: seq<Record>, call: Api) returns (accepted: bool)
    requires forall i :: 0 <= i < |frames| ==> frames[i].Sample?
    ensures accepted <==> LaunchOk(frames, call)
  {
    if |frames| != 3 || call.result != 0 {
      return false;
    }
    var made := frames[1].api;
    accepted := made.begin == call.begin && made.end == call.end && made.result == 0;
  }

  /** The frames of the window with that launch index. */
  method Frames(rows: seq<Row>, launch: nat) returns (frames: seq<Record>)
    ensures frames == FramesOf(rows, launch) && forall i :: 0 <= i < |frames| ==> frames[i].Sample?
  {
    frames := [];
    for i := 0 to |rows|
      invariant frames == FramesOf(rows[..i], launch) && forall k :: 0 <= k < |frames| ==> frames[k].Sample?
    {
      var record := rows[i].record;
      assert rows[..i + 1][..i] == rows[..i];
      if record.Sample? && record.kind == RingSample && record.index == launch {
        frames := frames + [record];
      }
    }
    assert rows[..|rows|] == rows;
  }

  predicate IsPhase(row: Row, tag: string, index: nat, round: nat) {
    && row.record.Sample? && row.record.kind == RingSetSample && row.record.tag == tag
    && row.record.index == index && row.record.round == round
  }

  /** The graph analyzer's check: four samples of this case, in phase order. */
  predicate GraphWindowOk(rows: seq<Row>, index: nat) {
    && |rows| == 4
    && IsPhase(rows[0], "idle", index, 0) && IsPhase(rows[1], "before_launch", index, 1)
    && IsPhase(rows[2], "after_launch", index, 2) && IsPhase(rows[3], "settled", index, 3)
  }

  method CheckGraphWindow(rows: seq<Row>, index: nat) returns (accepted: bool)
    ensures accepted <==> GraphWindowOk(rows, index)
  {
    var phases := ["idle", "before_launch", "after_launch", "settled"];
    if |rows| != |phases| {
      return false;
    }
    for j := 0 to |phases|
      invariant forall k :: 0 <= k < j ==> IsPhase(rows[k], phases[k], index, k)
    {
      var record := rows[j].record;
      if !(record.Sample? && record.kind == RingSetSample && record.tag == phases[j] && record.index == index &&
           record.round == j) {
        return false;
      }
    }
    return true;
  }

  function Phase(j: nat): string {
    if j == 0 then "idle" else if j == 1 then "before_launch" else if j == 2 then "after_launch" else "settled"
  }

  // ----- What the probes take

  function LaunchWants(launch: nat, call: Api): (wants: seq<Want>)
    ensures |wants| == 11
  {
    [Want(RingSample, "before_launch", launch, NO_API), Want(RingSample, "after_launch", launch, call)] +
    seq(PROGRESS, _ => Want(RingProgress, "entry_no_api", 0, NO_API)) +
    [Want(RingSample, "after_no_api", launch, NO_API)]
  }

  function OpeningWants(wrap: bool): seq<Want> {
    (if wrap then [Want(RingSample, "before_fill", 0, NO_API)] else []) + [Want(RingSample, "idle", 0, NO_API)]
  }

  function EntryWants(wrap: bool, first: Api, second: Api): (wants: seq<Want>)
    ensures wants != []
  {
    OpeningWants(wrap) + LaunchWants(1, first) + LaunchWants(2, second)
  }

  /** The window so far: behind `start` rows the log holds exactly these samples. */
  ghost predicate Taken(o: State, start: nat, wants: seq<Want>)
    reads o
  {
    && o.recording && o.readsArmed
    && start <= |o.log| && o.armedAt == start && o.rounds == |wants| && MatchesAll(o.log[start..], wants)
  }

  lemma MatchesOneMore(rows: seq<Row>, wants: seq<Want>, row: Row, want: Want)
    requires MatchesAll(rows, wants) && Matches(row, want, |wants|)
    ensures MatchesAll(rows + [row], wants + [want])
  {
  }

  /** Nothing outside the observer is in the way of a sample: it is asked for by the owner,
      in time, and its row can be written. */
  ghost predicate Smooth(envs: nat -> Env, owner: int, deadline: nat) {
    forall i: nat :: envs(i).pid == owner && envs(i).written && envs(i).now < deadline
  }

  /** Both passes of the frame hold what the armed blocks held. */
  predicate FromMemory(record: Record, addresses: seq<nat>, env: Env) {
    record.Sample? && ReadFrom(record.before, addresses, env.memory, 0) && ReadFrom(record.after, addresses, env.memory, 1)
  }

  method ReadRingFrame(o: State, tag: string, launch: nat, api: Api, envs: nat -> Env, ghost start: nat, ghost wants: seq<Want>,
                       ghost more: nat)
    returns (ok: bool)
    requires o.Valid() && Taken(o, start, wants) && PlainLabel(tag)
    modifies o`last, o`failed, o`log, o`rounds
    ensures o.Valid() && old(o.log) <= o.log
    ensures ok ==> Taken(o, start, wants + [Want(RingSample, tag, launch, api)]) && !o.failed
    ensures Smooth(envs, o.owner, o.deadline) && old(o.HasRoom(more + 1)) && o.ringAddress != 0 ==> ok && o.HasRoom(more)
    ensures ok ==>
              && |o.log| == |old(o.log)| + 1
              && FromMemory(o.log[|o.log| - 1].record, o.userdAddresses, envs(|wants|))
  {
    hide MatchesAll, o.Valid, ReadFrom, ReadsRings;
    ghost var before := o.log;
    ok := o.TakeRingSample(tag, launch, api, envs(o.rounds));
    if ok {
      ghost var row := o.log[|o.log| - 1];
      MatchesOneMore(before[start..], wants, row, Want(RingSample, tag, launch, api));
      assert o.log[start..] == before[start..] + [row];
    }
  }

  method ReadProgress(o: State, envs: nat -> Env, ghost start: nat, ghost wants: seq<Want>, ghost more: nat)
    returns (ok: bool)
    requires o.Valid() && Taken(o, start, wants) && o.ringAddress != 0
    modifies o`last, o`failed, o`log, o`rounds
    ensures o.Valid() && old(o.log) <= o.log
    ensures ok ==> Taken(o, start, wants + [Want(RingProgress, "entry_no_api", 0, NO_API)]) && !o.failed
    ensures Smooth(envs, o.owner, o.deadline) && old(o.HasRoom(more + 1)) ==> ok && o.HasRoom(more)
  {
    hide MatchesAll, o.Valid, ReadFrom, ReadsRings;
    ghost var before := o.log;
    ok := o.TakeSample("entry_no_api", NO_API, envs(o.rounds));
    if ok {
      ghost var row := o.log[|o.log| - 1];
      MatchesOneMore(before[start..], wants, row, Want(RingProgress, "entry_no_api", 0, NO_API));
      assert o.log[start..] == before[start..] + [row];
    }
  }

  method ReadAfterLaunch(o: State, envs: nat -> Env, ghost start: nat, ghost wants: seq<Want>, ghost more: nat)
    returns (ok: bool)
    requires o.Valid() && Taken(o, start, wants) && o.ringAddress != 0
    modifies o`last, o`failed, o`log, o`rounds
    ensures o.Valid() && old(o.log) <= o.log
    ensures ok ==> Taken(o, start, wants + seq(PROGRESS, _ => Want(RingProgress, "entry_no_api", 0, NO_API)))
    ensures Smooth(envs, o.owner, o.deadline) && old(o.HasRoom(more + 8)) ==> ok && o.HasRoom(more)
  {
    hide Taken, Smooth, o.HasRoom;
    ok := true;
    assert wants + seq(0, _ => Want(RingProgress, "entry_no_api", 0, NO_API)) == wants;
    for j := 0 to PROGRESS
      invariant o.Valid() && old(o.log) <= o.log
      invariant ok && Taken(o, start, wants + seq(j, _ => Want(RingProgress, "entry_no_api", 0, NO_API)))
      invariant Smooth(envs, o.owner, o.deadline) && old(o.HasRoom(more + 8)) ==> o.HasRoom(more + (8 - j))
    {
      ghost var soFar := wants + seq(j, _ => Want(RingProgress, "entry_no_api", 0, NO_API));
      ok := ReadProgress(o, envs, start, soFar, more + (7 - j));
      if !ok {
        return;
      }
      assert soFar + [Want(RingProgress, "entry_no_api", 0, NO_API)]
          == wants + seq(j + 1, _ => Want(RingProgress, "entry_no_api", 0, NO_API));
    }
  }

  lemma LaunchTakes(wants: seq<Want>, launch: nat, call: Api)
    ensures wants + LaunchWants(launch, call)
         == wants + [Want(RingSample, "before_launch", launch, NO_API)] + [Want(RingSample, "after_launch", launch, call)]
            + seq(PROGRESS, _ => Want(RingProgress, "entry_no_api", 0, NO_API))
            + [Want(RingSample, "after_no_api", launch, NO_API)]
  {
  }

  /** One measured launch: a frame before, the call, a frame after, progress samples
      without any call, and a last frame. A failed call throws after its frame. */
  method ReadLaunch(o: State, launch: nat, call: Api, envs: nat -> Env, ghost start: nat, ghost wants: seq<Want>,
                    ghost more: nat)
    returns (ok: bool)
    requires o.Valid() && Taken(o, start, wants) && o.ringAddress != 0
    modifies o`last, o`failed, o`log, o`rounds
    ensures o.Valid() && old(o.log) <= o.log
    ensures ok ==> call.result == 0 && Taken(o, start, wants + LaunchWants(launch, call))
    ensures Smooth(envs, o.owner, o.deadline) && old(o.HasRoom(more + 11)) && call.result == 0 ==> ok && o.HasRoom(more)
  {
    hide Taken, FromMemory, LaunchWants, Smooth, o.Valid, o.HasRoom;
    ok := ReadRingFrame(o, "before_launch", launch, NO_API, envs, start, wants, more + 10);
    if !ok { return; }
    ghost var first := wants + [Want(RingSample, "before_launch", launch, NO_API)];
    ok := ReadRingFrame(o, "after_launch", launch, call, envs, start, first, more + 9);
    if !ok || call.result != 0 { return false; }
    ghost var second := first + [Want(RingSample, "after_launch", launch, call)];
    ok := ReadAfterLaunch(o, envs, start, second, more + 1);
    if !ok { return; }
    ghost var third := second + seq(PROGRESS, _ => Want(RingProgress, "entry_no_api", 0, NO_API));
    ok := ReadRingFrame(o, "after_no_api", launch, NO_API, envs, start, third, more);
    LaunchTakes(wants, launch, call);
  }

  // ----- What is taken is accepted

  lemma {:induction false} FramesConcat(a: seq<Row>, b: seq<Row>, launch: nat)
    ensures FramesOf(a + b, launch) == FramesOf(a, launch) + FramesOf(b, launch)
  {
    if b == [] {
      assert a + b == a;
    } else {
      FramesConcat(a, b[..|b| - 1], launch);
      assert (a + b)[..|a + b| - 1] == a + b[..|b| - 1];
    }
  }

  lemma {:induction false} NoFrames(rows: seq<Row>, launch: nat)
    requires forall i :: 0 <= i < |rows| ==> !IsFrameOf(rows[i].record, launch)
    ensures FramesOf(rows, launch) == []
  {
    if rows != [] {
      NoFrames(rows[..|rows| - 1], launch);
    }
  }

  lemma {:induction false} OnlyFrames(rows: seq<Row>, launch: nat)
    requires forall i :: 0 <= i < |rows| ==> IsFrameOf(rows[i].record, launch)
    ensures |FramesOf(rows, launch)| == |rows|
    ensures forall i :: 0 <= i < |rows| ==> FramesOf(rows, launch)[i] == rows[i].record
  {
    if rows != [] {
      OnlyFrames(rows[..|rows| - 1], launch);
    }
  }

  /** The rows of one launch: its frames are the first two and the last. */
  lemma LaunchFrames(rows: seq<Row>, launch: nat, call: Api, base: nat, other: nat)
    requires MatchesFrom(rows, LaunchWants(launch, call), base)
    ensures other == launch ==> FramesOf(rows, other) == [rows[0].record, rows[1].record, rows[10].record]
    ensures other != launch ==> FramesOf(rows, other) == []
  {
    LaunchRows(rows, launch, call, base);
    if other != launch {
      NoFrames(rows, other);
    } else {
      var a, b, c := rows[..2], rows[2..10], rows[10..];
      assert rows == a + b + c;
      FramesConcat(a + b, c, other);
      FramesConcat(a, b, other);
      OnlyFrames(a, other);
      NoFrames(b, other);
      OnlyFrames(c, other);
    }
  }

  lemma LaunchRows(rows: seq<Row>, launch: nat, call: Api, base: nat)
    requires MatchesFrom(rows, LaunchWants(launch, call), base)
    ensures |rows| == 11 && forall i :: 0 <= i < 11 ==> rows[i].record.Sample?
    ensures forall i :: 0 <= i < 11 && (i < 2 || i == 10) ==> rows[i].record.kind == RingSample && rows[i].record.index == launch
    ensures forall i :: 2 <= i < 10 ==> rows[i].record.kind == RingProgress && rows[i].record.api == NO_API
    ensures rows[0].record.tag == "before_launch" && rows[1].record.tag == "after_launch" && rows[10].record.tag == "after_no_api"
    ensures rows[1].record.api == call && Labels(rows) == LaunchLabels()
  {
    var wants := LaunchWants(launch, call);
    forall i | 0 <= i < 11 ensures Matches(rows[i], wants[i], base + i) && Labels(rows)[i] == LaunchLabels()[i] {
    }
  }

  lemma LabelsConcat(a: seq<Row>, b: seq<Row>)
    ensures Labels(a + b) == Labels(a) + Labels(b)
  {
  }

  /** The window splits into its opening and the two launches. */
  lemma Segments(rows: seq<Row>, wrap: bool, first: Api, second: Api, h: nat)
    requires MatchesAll(rows, EntryWants(wrap, first, second)) && h == if wrap then 2 else 1
    ensures |rows| == h + 22
    ensures MatchesFrom(rows[..h], OpeningWants(wrap), 0)
    ensures MatchesFrom(rows[h..h + 11], LaunchWants(1, first), h)
    ensures MatchesFrom(rows[h + 11..], LaunchWants(2, second), h + 11)
  {
    var opening, one, two := OpeningWants(wrap), LaunchWants(1, first), LaunchWants(2, second);
    Pieces(rows, opening, one, two);
  }

  lemma Pieces(rows: seq<Row>, opening: seq<Want>, one: seq<Want>, two: seq<Want>)
    requires MatchesAll(rows, opening + one + two)
    ensures var h, k := |opening|, |opening| + |one|;
      && |rows| == k + |two|
      && MatchesFrom(rows[..h], opening, 0) && MatchesFrom(rows[h..k], one, h) && MatchesFrom(rows[k..], two, k)
  {
    hide Matches, MatchesFrom;
    var h, k := |opening|, |opening| + |one|;
    Split(rows, opening + one, two, 0);
    Split(rows[..k], opening, one, 0);
    assert rows[..k][..h] == rows[..h] && rows[..k][h..] == rows[h..k];
  }

  lemma Split(rows: seq<Row>, a: seq<Want>, b: seq<Want>, base: nat)
    requires MatchesFrom(rows, a + b, base)
    ensures |rows| == |a| + |b|
    ensures MatchesFrom(rows[..|a|], a, base) && MatchesFrom(rows[|a|..], b, base + |a|)
  {
    hide Matches;
    forall i | 0 <= i < |b| ensures Matches(rows[|a|..][i], b[i], base + |a| + i) {
      assert Matches(rows[|a| + i], (a + b)[|a| + i], base + (|a| + i));
    }
    forall i | 0 <= i < |a| ensures Matches(rows[..|a|][i], a[i], base + i) {
      assert Matches(rows[i], (a + b)[i], base + i);
    }
  }

  lemma WantsAccepted(rows: seq<Row>, wrap: bool, first: Api, second: Api)
    requires MatchesAll(rows, EntryWants(wrap, first, second)) && first.result == second.result == 0
    ensures |rows| == (if wrap then 24 else 23) && EntryWindowOk(rows, wrap, [first, second])
    ensures InLaunchOrder(FramesOf(rows, 1)) && InLaunchOrder(FramesOf(rows, 2))
  {
    hide MatchesAll, MatchesFrom, OpeningWants, LaunchWants, EntryWants, LaunchLabels, FramesOf, EntryLabels,
         LaunchOk, InLaunchOrder;
    var h := if wrap then 2 else 1;
    Segments(rows, wrap, first, second, h);
    var opening, one, two := rows[..h], rows[h..h + 11], rows[h + 11..];
    assert rows == opening + one + two;
    WantedLabels(opening, one, two, wrap, first, second, h);
    WantedFrames(opening, one, two, wrap, first, second, h);
    WantedRounds(rows, opening, one, two, wrap, first, second, h);
  }

  lemma WantedLabels(opening: seq<Row>, one: seq<Row>, two: seq<Row>, wrap: bool, first: Api, second: Api, h: nat)
    requires MatchesFrom(opening, OpeningWants(wrap), 0) && MatchesFrom(one, LaunchWants(1, first), h)
    requires MatchesFrom(two, LaunchWants(2, second), h + 11)
    ensures Labels(opening + one + two) == EntryLabels(wrap)
  {
    hide MatchesFrom, OpeningWants, LaunchWants, LaunchLabels;
    OpeningRows(opening, wrap);
    LaunchRows(one, 1, first, h);
    LaunchRows(two, 2, second, h + 11);
    LabelsConcat(opening + one, two);
    LabelsConcat(opening, one);
  }

  lemma WantedFrames(opening: seq<Row>, one: seq<Row>, two: seq<Row>, wrap: bool, first: Api, second: Api, h: nat)
    requires MatchesFrom(opening, OpeningWants(wrap), 0) && MatchesFrom(one, LaunchWants(1, first), h)
    requires MatchesFrom(two, LaunchWants(2, second), h + 11) && first.result == second.result == 0
    ensures LaunchOk(FramesOf(opening + one + two, 1), first) && InLaunchOrder(FramesOf(opening + one + two, 1))
    ensures LaunchOk(FramesOf(opening + one + two, 2), second) && InLaunchOrder(FramesOf(opening + one + two, 2))
  {
    hide MatchesFrom, OpeningWants, LaunchWants, FramesOf, LaunchLabels, Labels;
    OpeningRows(opening, wrap);
    LaunchRows(one, 1, first, h);
    LaunchRows(two, 2, second, h + 11);
    ThreeParts(opening, one, two, 1);
    ThreeParts(opening, one, two, 2);
    NoFrames(opening, 1);
    NoFrames(opening, 2);
    LaunchFrames(one, 1, first, h, 1);
    LaunchFrames(one, 1, first, h, 2);
    LaunchFrames(two, 2, second, h + 11, 1);
    LaunchFrames(two, 2, second, h + 11, 2);
  }

  lemma ThreeParts(opening: seq<Row>, one: seq<Row>, two: seq<Row>, launch: nat)
    ensures FramesOf(opening + one + two, launch)
         == FramesOf(opening, launch) + FramesOf(one, launch) + FramesOf(two, launch)
  {
    FramesConcat(opening + one, two, launch);
    FramesConcat(opening, one, launch);
  }

  lemma WantedRounds(rows: seq<Row>, opening: seq<Row>, one: seq<Row>, two: seq<Row>,
                     wrap: bool, first: Api, second: Api, h: nat)
    requires MatchesAll(rows, EntryWants(wrap, first, second)) && rows == opening + one + two
    requires MatchesFrom(opening, OpeningWants(wrap), 0) && MatchesFrom(one, LaunchWants(1, first), h)
    requires MatchesFrom(two, LaunchWants(2, second), h + 11)
    ensures forall i :: 0 <= i < |rows| ==> rows[i].record.Sample? && rows[i].record.round == i
    ensures forall i :: 0 <= i < |rows| && rows[i].record.kind == RingProgress ==> rows[i].record.api == NO_API
  {
    hide OpeningWants, LaunchWants, LaunchLabels, Labels, EntryWants, MatchesFrom;
    OpeningRows(opening, wrap);
    LaunchRows(one, 1, first, h);
    LaunchRows(two, 2, second, h + 11);
    RoundsAndCalls(rows, opening, one, two, EntryWants(wrap, first, second));
  }

  lemma OpeningRows(rows: seq<Row>, wrap: bool)
    requires MatchesFrom(rows, OpeningWants(wrap), 0)
    ensures |rows| == (if wrap then 2 else 1)
    ensures forall i :: 0 <= i < |rows| ==>
              rows[i].record.Sample? && rows[i].record.kind == RingSample && rows[i].record.index == 0
    ensures Labels(rows) == (if wrap then [Some((RingSample, "before_fill"))] else []) + [Some((RingSample, "idle"))]
  {
    var wants := OpeningWants(wrap);
    assert forall i :: 0 <= i < |rows| ==> Matches(rows[i], wants[i], i);
  }

  lemma RoundsAndCalls(rows: seq<Row>, opening: seq<Row>, one: seq<Row>, two: seq<Row>, wants: seq<Want>)
    requires MatchesAll(rows, wants) && rows == opening + one + two && |one| == |two| == 11
    requires forall i :: 0 <= i < |opening| ==> opening[i].record.Sample? && opening[i].record.kind == RingSample
    requires forall i :: 0 <= i < 11 ==> one[i].record.Sample? && two[i].record.Sample?
    requires forall i :: 0 <= i < 11 && (i < 2 || i == 10) ==>
               one[i].record.kind == RingSample && two[i].record.kind == RingSample
    requires forall i :: 2 <= i < 10 ==> one[i].record.api == NO_API && two[i].record.api == NO_API
    ensures forall i :: 0 <= i < |rows| ==> rows[i].record.Sample? && rows[i].record.round == i
    ensures forall i :: 0 <= i < |rows| && rows[i].record.kind == RingProgress ==> rows[i].record.api == NO_API
  {
    forall i | 0 <= i < |rows|
      ensures rows[i].record.Sample? && rows[i].record.round == i
      ensures rows[i].record.kind == RingProgress ==> rows[i].record.api == NO_API
    {
      assert Matches(rows[i], wants[i], i);
      var h := |opening|;
      assert rows[i] == if i < h then opening[i] else if i < h + 11 then one[i - h] else two[i - h - 11];
    }
  }

  // ----- Preparing a wrap

  /** The active ring at the start of the window, the entries that launches will store
      in it, and after which of them audit and deadline still hold. */
  datatype Filling = Filling(ring: Ring, words: nat -> Word, proceed: nat -> bool)

  function FirstWords(words: nat -> Word, n: nat): (r: seq<Word>)
    ensures |r| == n
  {
    seq(n, j requires 0 <= j < n => words(j))
  }

  /** The launches between the first two frames, each storing one entry. */
  method Fill(filling: Filling, preparation: nat) returns (filled: Result<Ring>)
    requires WellFormed(filling.ring)
    ensures filled.Ok? <==> forall j: nat :: j < preparation ==> filling.proceed(j)
    ensures filled.Ok? ==> filled.value == Produce(filling.ring, FirstWords(filling.words, preparation))
  {
    hide Produce;
    var ring := filling.ring;
    ProduceNothing(ring);
    for j := 0 to preparation
      invariant WellFormed(ring) && ring == Produce(filling.ring, FirstWords(filling.words, j))
      invariant forall k: nat :: k < j ==> filling.proceed(k)
    {
      ProduceAppend(filling.ring, FirstWords(filling.words, j), filling.words(j));
      assert FirstWords(filling.words, j + 1) == FirstWords(filling.words, j) + [filling.words(j)];
      ring := Submit(ring, filling.words(j));
      if !filling.proceed(j) {
        return Err("wrap preparation invalidated the audit or exceeded its deadline");
      }
    }
    filled := Ok(ring);
  }

  /** The active channel's PUT at both passes of a sample. */
  predicate ShowsPut(record: Record, active: nat, put: nat) {
    && record.Sample? && active < |record.before| && active < |record.after|
    && record.before[active].counters.put as nat == put && record.after[active].counters.put as nat == put
  }

  /** The analyzer's demand on a wrap: the launches asked for by the plan's PUT, that PUT
      in the first frame, and the last slot in the second. */
  predicate WrapOk(rows: seq<Row>, active: nat, entries: nat, initialPut: nat, preparation: nat) {
    && 2 <= |rows| && initialPut < entries && preparation == entries - 1 - initialPut
    && ShowsPut(rows[0].record, active, initialPut) && ShowsPut(rows[1].record, active, entries - 1)
  }

  /** The block at `address` shows this PUT in both passes. */
  predicate Holds(env: Env, address: nat, put: nat) {
    env.memory(0, address).put as nat == put && env.memory(1, address).put as nat == put
  }

  /** Filling by the plan's count ends on the last slot exactly if PUT stood where the
      plan said. */
  lemma FilledExactly(ring: Ring, words: seq<Word>, initialPut: nat)
    requires WellFormed(ring) && initialPut < |ring.slots| && |words| == |ring.slots| - 1 - initialPut
    ensures Produce(ring, words).put == |ring.slots| - 1 <==> ring.put == initialPut
  {
    hide Produce;
    var n := |ring.slots|;
    PutAdvances(ring, words);
    OneTurn(ring.put + |words|, n);
  }

  /** Memory that follows the ring shows the prepared wrap exactly if PUT has not moved
      between the plan and the first frame. */
  lemma WrapExactly(rows: seq<Row>, addresses: seq<nat>, active: nat, initialPut: nat, filling: Filling, before: Env,
                    filled: Env)
    requires 2 <= |rows| && active < |addresses| && WellFormed(filling.ring) && initialPut < |filling.ring.slots|
    requires FromMemory(rows[0].record, addresses, before) && FromMemory(rows[1].record, addresses, filled)
    requires Holds(before, addresses[active], filling.ring.put)
    requires Holds(filled, addresses[active],
                   Produce(filling.ring, FirstWords(filling.words, |filling.ring.slots| - 1 - initialPut)).put)
    ensures WrapOk(rows, active, |filling.ring.slots|, initialPut, |filling.ring.slots| - 1 - initialPut)
       <==> filling.ring.put == initialPut
  {
    hide Produce;
    FilledExactly(filling.ring, FirstWords(filling.words, |filling.ring.slots| - 1 - initialPut), initialPut);
  }

  method ReadOpening(o: State, wrap: bool, filling: Filling, preparation: nat, envs: nat -> Env, ghost more: nat)
    returns (ok: bool)
    requires o.Valid() && o.recording && o.readsArmed && o.rounds == 0 && o.armedAt == |o.log|
    requires o.ringAddress != 0 && WellFormed(filling.ring)
    modifies o`last, o`failed, o`log, o`rounds
    ensures o.Valid() && old(o.log) <= o.log
    ensures ok ==> Taken(o, |old(o.log)|, OpeningWants(wrap))
    ensures (&& Smooth(envs, o.owner, o.deadline) && old(o.HasRoom(more + if wrap then 2 else 1))
             && (wrap ==> forall j: nat :: j < preparation ==> filling.proceed(j))) ==>
              ok && o.HasRoom(more)
    ensures ok && wrap ==>
              && |o.log| == |old(o.log)| + 2 && (forall j: nat :: j < preparation ==> filling.proceed(j))
              && FromMemory(o.log[|o.log| - 2].record, o.userdAddresses, envs(0))
              && FromMemory(o.log[|o.log| - 1].record, o.userdAddresses, envs(1))
  {
    hide FromMemory, o.Valid, Produce, Smooth;
    ghost var start := |o.log|;
    ghost var begun := [];
    if wrap {
      ok := ReadRingFrame(o, "before_fill", 0, NO_API, envs, start, begun, more + 1);
      if !ok { return; }
      var filled := Fill(filling, preparation);
      if filled.Err? { return false; }
      begun := begun + [Want(RingSample, "before_fill", 0, NO_API)];
    }
    ok := ReadRingFrame(o, "idle", 0, NO_API, envs, start, begun, more);
    assert begun + [Want(RingSample, "idle", 0, NO_API)] == OpeningWants(wrap);
  }

  method ReadLaunches(o: State, wrap: bool, first: Api, second: Api, envs: nat -> Env, ghost start: nat, ghost more: nat)
    returns (ok: bool)
    requires o.Valid() && Taken(o, start, OpeningWants(wrap)) && o.ringAddress != 0
    modifies o`last, o`failed, o`log, o`rounds
    ensures o.Valid() && old(o.log) <= o.log
    ensures ok ==> first.result == second.result == 0 && Taken(o, start, EntryWants(wrap, first, second))
    ensures Smooth(envs, o.owner, o.deadline) && old(o.HasRoom(more + 22)) && first.result == second.result == 0 ==>
              ok && o.HasRoom(more)
  {
    hide Taken, OpeningWants, LaunchWants, Smooth, o.HasRoom;
    ok := ReadLaunch(o, 1, first, envs, start, OpeningWants(wrap), more + 11);
    if !ok { return; }
    ok := ReadLaunch(o, 2, second, envs, start, OpeningWants(wrap) + LaunchWants(1, first), more);
  }

  /** Closes the window: the samples taken are all it holds. */
  method CloseWindow(o: State, env: Env, ghost start: nat, ghost wants: seq<Want>) returns (samples: nat)
    requires o.Valid() && Taken(o, start, wants)
    modifies o`last, o`failed, o`log, o`readsArmed
    ensures o.Valid() && old(o.log) <= o.log
    ensures start <= |old(o.log)| && MatchesAll(old(o.log)[start..], wants)
    ensures old(o.HasRoom(1)) && env.pid == o.owner && env.written && wants != [] ==> samples > 0
    ensures samples > 0 ==>
              && samples == |wants| == |old(o.log)| - start && o.log == old(o.log) + [Row(|o.log|, Record.Mark(o.FinishTag()))]
  {
    hide o.Valid, Window;
    samples := o.FinishReads(env.pid, env.written);
  }

  /** Memory follows the active ring: at the first frame as it was, at the second as the
      preparing launches left it. */
  predicate Follows(filling: Filling, preparation: nat, envs: nat -> Env, address: nat, entries: nat) {
    && WellFormed(filling.ring) && |filling.ring.slots| == entries
    && Holds(envs(0), address, filling.ring.put)
    && Holds(envs(1), address, Produce(filling.ring, FirstWords(filling.words, preparation)).put)
  }

  lemma AskedInTime(envs: nat -> Env, owner: int, deadline: nat, i: nat)
    ensures Smooth(envs, owner, deadline) ==> envs(i).pid == owner && envs(i).written && envs(i).now < deadline
  {
  }

  /** The entry probe from the armed ring to the finish mark. A positive result means that
      the rows of the window pass the analyzer's window checks as they stand. With a
      wrap prepared by the count that the plan's PUT asks for, they also pass its check on
      the wrap exactly if the ring's PUT still stood there, in any memory that follows
      the ring. If nothing is in the way, it comes to a positive result. */
  method EntryProbe(o: State, wrap: bool, active: nat, initialPut: nat, filling: Filling, first: Api, second: Api,
                    envs: nat -> Env) returns (samples: nat, preparation: nat)
    requires o.Valid() && o.recording && o.readsArmed && o.rounds == 0 && o.armedAt == |o.log|
    requires o.ringAddress != 0 && o.ringAddresses == [] && WellFormed(filling.ring)
    requires active < |o.userdAddresses| && initialPut < o.ringEntries as nat
    modifies o
    ensures o.Valid() && old(o.log) <= o.log
    ensures preparation == if wrap then old(o.ringEntries) as nat - 1 - initialPut else 0
    ensures (&& old(Smooth(envs, o.owner, o.deadline) && o.HasRoom(25)) && first.result == second.result == 0
             && (wrap ==> forall j: nat :: j < preparation ==> filling.proceed(j))) ==>
              samples > 0
    ensures samples > 0 ==>
              && samples == (if wrap then 24 else 23) && |o.log| == |old(o.log)| + samples + 1
              && o.log[|o.log| - 1].record == Record.Mark("ring_reads_finished")
              && EntryWindowOk(o.log[|old(o.log)|..|o.log| - 1], wrap, [first, second])
              && InLaunchOrder(FramesOf(o.log[|old(o.log)|..|o.log| - 1], 1))
              && InLaunchOrder(FramesOf(o.log[|old(o.log)|..|o.log| - 1], 2))
    ensures samples > 0 && wrap ==> forall j: nat :: j < preparation ==> filling.proceed(j)
    ensures samples > 0 && wrap &&
            Follows(filling, preparation, envs, old(o.userdAddresses[active]), old(o.ringEntries) as nat) ==>
              (filling.ring.put == initialPut <==>
                 WrapOk(o.log[|old(o.log)|..|o.log| - 1], active, old(o.ringEntries) as nat, initialPut, preparation))
  {
    hide EntryWindowOk, InLaunchOrder, FramesOf, EntryWants, Taken, MatchesAll, WrapOk, Follows, FromMemory, Smooth,
         o.Valid;
    samples := 0;
    var entries := o.ringEntries as nat;
    preparation := if wrap then entries - 1 - initialPut else 0;
    ghost var start, addresses := |o.log|, o.userdAddresses;
    var ok := ReadOpening(o, wrap, filling, preparation, envs, if wrap then 23 else 24);
    if !ok { return; }
    ghost var opening := o.log;
    ok := ReadLaunches(o, wrap, first, second, envs, start, if wrap then 1 else 2);
    if !ok { return; }
    ghost var window := o.log[start..];
    AskedInTime(envs, o.owner, o.deadline, o.rounds);
    samples := CloseWindow(o, envs(o.rounds), start, EntryWants(wrap, first, second));
    if samples > 0 {
      assert o.log[start..|o.log| - 1] == window;
      WantsAccepted(window, wrap, first, second);
      if wrap {
        assert window[0] == opening[start] && window[1] == opening[start + 1];
        WrapFollows(window, addresses, active, initialPut, filling, preparation, entries, envs);
      }
    }
  }

  lemma WrapFollows(rows: seq<Row>, addresses: seq<nat>, active: nat, initialPut: nat, filling: Filling, preparation: nat,
                    entries: nat, envs: nat -> Env)
    requires 2 <= |rows| && active < |addresses| && initialPut < entries && preparation == entries - 1 - initialPut
    requires FromMemory(rows[0].record, addresses, envs(0)) && FromMemory(rows[1].record, addresses, envs(1))
    ensures Follows(filling, preparation, envs, addresses[active], entries) ==>
              (WrapOk(rows, active, entries, initialPut, preparation) <==> filling.ring.put == initialPut)
  {
    hide FromMemory, WrapOk, Holds, Produce;
    if Follows(filling, preparation, envs, addresses[active], entries) {
      WrapExactly(rows, addresses, active, initialPut, filling, envs(0), envs(1));
    }
  }

  /** Arming included, once the plan has passed: with no other thread in between, nothing
      but the arming itself stands between the snapshot's row and the window. */
  method ArmAndProbe(o: State, sequence: nat, addresses: seq<nat>, address: nat, entries: bv32, metadata: bool,
                     wrap: bool, active: nat, initialPut: nat, filling: Filling, first: Api, second: Api,
                     envs: nat -> Env) returns (samples: nat, preparation: nat)
    requires o.Valid() && active < |addresses| && initialPut < entries as nat && WellFormed(filling.ring)
    modifies o
    ensures o.Valid() && old(o.log) <= o.log
    ensures (&& old(o.CanArm(sequence, envs(0).pid)) && metadata && UsableRing(address, entries) && UsableBlocks(addresses)
             && old(o.logOpen) && sequence + 25 <= 20000 && Smooth(envs, o.owner, envs(0).now + 3_000_000_000)
             && first.result == second.result == 0
             && (wrap ==> forall j: nat :: j < entries as nat - 1 - initialPut ==> filling.proceed(j))) ==>
              samples > 0
    ensures samples > 0 ==>
              && |old(o.log)| == sequence && |o.log| == sequence + samples + 1
              && UsableRing(address, entries) && UsableBlocks(addresses)
              && EntryWindowOk(o.log[sequence..sequence + samples], wrap, [first, second])
              && preparation == if wrap then entries as nat - 1 - initialPut else 0
    ensures samples > 0 && wrap && Follows(filling, preparation, envs, addresses[active], entries as nat) ==>
              (filling.ring.put == initialPut <==>
                 WrapOk(o.log[sequence..sequence + samples], active, entries as nat, initialPut, preparation))
  {
    hide EntryWindowOk, UsableBlocks, PowerOfTwo, o.Valid, WrapOk, Follows;
    samples, preparation := 0, 0;
    var armed := o.ArmRing(sequence, addresses, address, entries, metadata, envs(0), []);
    if armed {
      samples, preparation := EntryProbe(o, wrap, active, initialPut, filling, first, second, envs);
    }
  }

  // ----- One case of the graph probe

  predicate PutIs(record: Record, channel: nat, put: nat) {
    record.Sample? && channel < |record.after| && record.after[channel].counters.put as nat == put
  }

  function PhaseWants(n: nat, index: nat): (wants: seq<Want>)
    ensures |wants| == n
  {
    seq(n, j requires 0 <= j < n => Want(RingSetSample, Phase(j), index, NO_API))
  }

  lemma PhaseIsPlain(j: nat)
    ensures PlainLabel(Phase(j))
  {
  }

  /** One sample, of which the probe keeps the PUT value of the active channel. */
  method ReadPhase(o: State, j: nat, index: nat, active: nat, envs: nat -> Env, ghost start: nat, ghost more: nat)
    returns (ok: bool, put: nat)
    requires o.Valid() && Taken(o, start, PhaseWants(j, index)) && active < |o.userdAddresses|
    modifies o`last, o`failed, o`log, o`rounds
    ensures o.Valid() && old(o.log) <= o.log
    ensures ok ==> Taken(o, start, PhaseWants(j + 1, index))
    ensures Smooth(envs, o.owner, o.deadline) && old(o.HasRoom(more + 1)) && o.ringAddresses != [] ==> ok && o.HasRoom(more)
    ensures ok ==> put == envs(j).memory(1, o.userdAddresses[active]).put as nat
    ensures ok ==> |o.log| == |old(o.log)| + 1 && PutIs(o.log[|o.log| - 1].record, active, put)
  {
    hide MatchesAll, o.Valid, ReadsRings, Phase, PlainLabel;
    ghost var before := o.log;
    put := 0;
    PhaseIsPlain(j);
    var read, puts := o.TakeRingSetSample(Phase(j), index, envs(o.rounds));
    ok := read;
    if ok {
      ghost var row := o.log[|o.log| - 1];
      ghost var want := Want(RingSetSample, Phase(j), index, NO_API);
      MatchesOneMore(before[start..], PhaseWants(j, index), row, want);
      assert o.log[start..] == before[start..] + [row];
      assert PhaseWants(j, index) + [want] == PhaseWants(j + 1, index);
      put := puts[active] as nat;
    }
  }

  lemma PhasesAccepted(rows: seq<Row>, index: nat)
    requires MatchesAll(rows, PhaseWants(4, index))
    ensures GraphWindowOk(rows, index)
  {
    forall j: nat | j < 4 ensures IsPhase(rows[j], Phase(j), index, j) {
      assert Matches(rows[j], PhaseWants(4, index)[j], 0 + j);
    }
  }

  lemma NothingTaken(o: State, index: nat)
    requires o.recording && o.readsArmed && o.rounds == 0 && o.armedAt == |o.log|
    ensures Taken(o, |o.log|, PhaseWants(0, index))
  {
  }

  /** The analyzer's demand on a prepared wrap: the launches before it moved the active
      channel from where the first sample saw it to the last slot. */
  predicate WrapPrepared(rows: seq<Row>, active: nat, entries: nat, preparation: nat) {
    && 2 <= |rows| && preparation < entries
    && PutIs(rows[0].record, active, entries - 1 - preparation) && PutIs(rows[1].record, active, entries - 1)
  }

  /** The ring has entries left at the first sample, and stands at its last at the second. */
  predicate FillsUp(envs: nat -> Env, address: nat, entries: nat) {
    0 < entries && envs(0).memory(1, address).put as nat < entries && envs(1).memory(1, address).put as nat == entries - 1
  }

  /** The first two samples, and between them the launches that prepare a wrap. */
  method Prepare(o: State, index: nat, wraps: bool, active: nat, entries: nat, filled: bool, envs: nat -> Env, ghost more: nat)
    returns (ok: bool, preparation: nat)
    requires o.Valid() && Taken(o, |o.log|, PhaseWants(0, index)) && active < |o.userdAddresses|
    modifies o`last, o`failed, o`log, o`rounds
    ensures o.Valid() && old(o.log) <= o.log
    ensures ok ==> Taken(o, |old(o.log)|, PhaseWants(2, index)) && |o.log| == |old(o.log)| + 2
    ensures (&& Smooth(envs, o.owner, o.deadline) && old(o.HasRoom(more + 2)) && o.ringAddresses != []
             && (wraps ==> filled && FillsUp(envs, o.userdAddresses[active], entries))) ==>
              ok && o.HasRoom(more)
    ensures ok && wraps ==> filled && FillsUp(envs, o.userdAddresses[active], entries)
    ensures ok && !wraps ==> preparation == 0
    ensures ok && wraps ==> WrapPrepared(o.log[|old(o.log)|..], active, entries, preparation)
  {
    hide Taken, PhaseWants, Smooth, o.Valid, o.HasRoom, PutIs, WrapPrepared;
    preparation := 0;
    ghost var start := |o.log|;
    var put;
    ok, put := ReadPhase(o, 0, index, active, envs, start, more + 1);
    if !ok { return; }
    if wraps {
      if put >= entries { return false, 0; }
      preparation := entries - 1 - put;
      if !filled { return false, 0; }
    }
    ok, put := ReadPhase(o, 1, index, active, envs, start, more);
    if !ok || (wraps && put != entries - 1) { return false, 0; }
    if wraps {
      Shown(o.log, start, active, entries, preparation);
    }
  }

  lemma Shown(log: seq<Row>, start: nat, active: nat, entries: nat, preparation: nat)
    requires |log| == start + 2 && preparation < entries
    requires PutIs(log[start].record, active, entries - 1 - preparation) && PutIs(log[start + 1].record, active, entries - 1)
    ensures WrapPrepared(log[start..], active, entries, preparation)
  {
  }

  method Observe(o: State, index: nat, active: nat, envs: nat -> Env, ghost start: nat, ghost more: nat) returns (ok: bool)
    requires o.Valid() && Taken(o, start, PhaseWants(2, index)) && active < |o.userdAddresses|
    modifies o`last, o`failed, o`log, o`rounds
    ensures o.Valid() && old(o.log) <= o.log
    ensures ok ==> Taken(o, start, PhaseWants(4, index))
    ensures Smooth(envs, o.owner, o.deadline) && old(o.HasRoom(more + 2)) && o.ringAddresses != [] ==> ok && o.HasRoom(more)
  {
    hide Taken, PhaseWants, Smooth, o.Valid, o.HasRoom, PutIs;
    var put;
    ok, put := ReadPhase(o, 2, index, active, envs, start, more + 1);
    if ok {
      ok, put := ReadPhase(o, 3, index, active, envs, start, more);
    }
  }

  /** One case from the armed rings to the finish mark; a prepared wrap is asked for in
      the case of three graph nodes only. If nothing is in the way, it comes to a positive
      result; with a wrap to prepare, only if the ring had room and was then filled up. */
  method GraphProbe(o: State, index: nat, wrap: bool, active: nat, filled: bool, envs: nat -> Env)
    returns (samples: nat, preparation: nat)
    requires o.Valid() && o.recording && o.readsArmed && o.rounds == 0 && o.armedAt == |o.log|
    requires o.ringAddresses != [] && |o.ringCounts| == |o.userdAddresses| && active < |o.ringCounts|
    modifies o
    ensures o.Valid() && old(o.log) <= o.log
    ensures (&& old(Smooth(envs, o.owner, o.deadline) && o.HasRoom(5))
             && (wrap && index == 3 ==>
                   filled && FillsUp(envs, old(o.userdAddresses[active]), old(o.ringCounts[active]) as nat))) ==>
              samples > 0
    ensures samples > 0 && wrap && index == 3 ==>
              filled && FillsUp(envs, old(o.userdAddresses[active]), old(o.ringCounts[active]) as nat)
    ensures samples > 0 ==>
              && samples == 4 && |o.log| == |old(o.log)| + 5
              && o.log[|o.log| - 1].record == Record.Mark("graph_reads_finished")
              && GraphWindowOk(o.log[|old(o.log)|..|o.log| - 1], index)
              && if wrap && index == 3
                 then WrapPrepared(o.log[|old(o.log)|..|o.log| - 1], active, old(o.ringCounts[active]) as nat, preparation)
                 else preparation == 0
  {
    hide Taken, PhaseWants, GraphWindowOk, MatchesAll, WrapPrepared, Smooth, FillsUp, o.Valid;
    ghost var start := |o.log|;
    NothingTaken(o, index);
    samples := 0;
    var entries := o.ringCounts[active] as nat;
    var ok;
    ok, preparation := Prepare(o, index, wrap && index == 3, active, entries, filled, envs, 3);
    if !ok { return; }
    ghost var begun := o.log;
    ok := Observe(o, index, active, envs, start, 1);
    if !ok { return; }
    ghost var window := o.log[start..];
    AskedInTime(envs, o.owner, o.deadline, o.rounds);
    samples := CloseWindow(o, envs(o.rounds), start, PhaseWants(4, index));
    if samples > 0 {
      assert o.log[start..|o.log| - 1] == window && begun[start..] <= window;
      PhasesAccepted(window, index);
      StillPrepared(begun[start..], window, active, entries, preparation);
    }
  }

  lemma StillPrepared(rows: seq<Row>, more: seq<Row>, active: nat, entries: nat, preparation: nat)
    requires rows <= more
    ensures WrapPrepared(rows, active, entries, preparation) ==> WrapPrepared(more, active, entries, preparation)
  {
  }
}
