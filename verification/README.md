# Verified model of the two-context experiment's evidence

The repository runs CUDA experiments with two contexts, A and B, and decides from
logs what each run proved. The GPU calls are plumbing; this project models the
logic around them and proves it. Every `.dfy` file holds one module of the same
name; `dafny verify dfyconfig.toml` checks them all. `Results` and `Hardware` hold
what the others share: failure-carrying results, block and entry sizes, the
power-of-two test.

**Mappings from a log.** `EventLog` is the decoded observer log. `Kernel` replays
it event by event on a plain machine: a flat table of live RM objects, the mmap
context each descriptor carries, a byte-level CPU address space, and one UVM space
per descriptor with its ranges and GPU mappings. `WellFormed` collects what the
kernel guarantees of calls it lets succeed: an mmap without MAP_FIXED lands on free
pages, calls work on whole pages, a failed call does nothing (mmap() and munmap()
in POSIX.1-2017 System Interfaces), a UVM range is created where none is live, an
external mapping lies inside one external range. `UserdMapping` and `GpfifoBinding`
are `resolve_channel` and `resolve_ring`; `LiveObjects`, `MappingSoundness`,
`UvmLifetime`, `GpfifoSoundness`, `RingSquare` and `RecycledRange` relate them to
the machine. `ChannelAcceptance` and `RingAcceptance` say, for every numbered log,
exactly which binding each of them answers with, in terms of events, replayed objects
and VMAs and none of their own steps. `BoundSets` is `bind_set`.

**The handoff protocol.** `Protocol` is a machine of three participants with
one-shot flags, a cancel flag, a nondecreasing clock, failure at every fallible call,
A's context, intervals waited for, and the answers to what the participants ask the
devices; `Handoff`, `RmTrial` and `Takeover` are the programs that run on it, and
`TrialControls` counts the RM controls such a run asks for.

**The observer.** `Observer` is the stateful object behind `userd_observer_*`; a
threaded run is a sequence of its methods, because each holds the observer's mutex
once recording has begun. Arming with rings holds it twice; whatever other threads
log in between is a parameter of the two methods concerned. `EntryWindows` takes the
windows of the entry and graph probes through this object and sets the rows against
the analyzers' window checks.

**Attribution, traces and clocks.** `RingInterval`, `EntryFrames` and
`RingProducer` set the frame comparisons against a producer that stores an entry
and then advances PUT. `Residency` and `Clock` are the trace and clock arithmetic.

`ProgressWindow` keeps the progress probe's own model of a sample in step with it.

**Producers against checkers.** `GraphCapture`, `ProgressProbe`, `Rewind` with
`RewindEvidence`, `ControlBudget`, `Numerals` and `PlanText` set the C++ side (topology check, sample
generator, case machine, control loops, plan readers) against what the Python side
accepts or prints.

## What was found

- *A ring can be accepted although its GPU mapping is gone.* After the mapping,
  `resolve_ring` compares a later UVM free only with the base of the one range
  creation it matched (scripts/gpfifo_binding.py:66-75). If that range was freed
  before the mapping and a larger range with a lower base now hosts it, freeing the
  host goes unnoticed. `RecycledRange.AcceptedRingMayBeUnmapped` is such a log, and
  shows at the same time that the hypotheses of the mapping theorems can be met;
  `RingSquare.RingSquareExactly` proves that for every log this is the only way the
  square can fail: it commutes if and only if no later free names the range that
  hosts the mapping. If no UVM free of the mapping's own base precedes the mapping,
  it always commutes.
- *A valid start estimate does not provide a constant clock offset.*
  `estimate_start` bounds the start by the union of the two anchors, so a run may
  be accepted that no constant offset explains (`Clock.ValidWithoutOffset`);
  `Clock.OffsetExistsExactly` says when one exists.
- *A completed progress probe can be rejected.* The observer checks its deadline
  before each sample, the validator measures to the end of the last one. A completed
  run is accepted exactly when that span is below three seconds, hence whenever its
  last sample ends before the deadline (`ProgressProbe.Probe.Run`);
  `ProgressProbe.CompletedButRejected` is a run that completes and is rejected.
- *A rewind run can leave evidence its analyzer rejects.* Each case writes call rows,
  a result row, a main row and the bridge's journal, in this order, and any of these
  writes can fail. Given that the journal says of each control what the bridge was
  asked, `Rewind.Experiment.Run` proves exactly when the analyzer accepts what is
  left, stopped run or not: there is a result; no piece of a further result row is
  left behind it; the last main row is there, as far as the analyzer reads it; the
  call log does not break off inside a row of the last recorded case; and the journal
  was saved behind that case's controls, be it with the case, on a control's error or
  while an exception was handled. `Rewind.RejectedWithoutJournal` is a rejected run
  whose only case was preserved, `Rewind.CompletesAccepted` a family of accepted ones.
- *The plan's PUT decides the entry probe's wrap check.* The probe fills the ring by
  the count that the PUT read for the plan asks for. The analyzer's check on the
  prepared wrap then holds if and only if PUT still stood there when the window opened
  (`EntryWindows.WrapExactly`).
- *The two token ranges of the rewind experiment meet at 2^28 slots.* Option
  parsing allows at most ten (`RewindEvidence.TokensDistinctExactly`).

## Model

| member | source | states |
|---|---|---|
| EventLog.RawOverlapIsPageOverlap | scripts/analyze_userd_mapping.py:42-43 | The raw-length overlap test reports a page-rounded unmap of a page-aligned mapping exactly when the two share a byte |
| LiveObjects.LastAllocationIsLive | scripts/analyze_userd_mapping.py:26-31 | The flat live-object table holds a handle if and only if its last allocation is not followed by a free, and then holds that allocation |
| LiveObjects.BirthIsLiveObject | scripts/analyze_userd_mapping.py:26-35 | `birth` returns an event if and only if the replayed table holds just that event and its encoding is known |
| LiveObjects.LiveSinceBirth | scripts/analyze_userd_mapping.py:26-35 | From its birth to the end of the log the handle keeps naming the same allocation |
| UserdMapping.FindMmap | scripts/analyze_userd_mapping.py:81-91 | The inner loop with its breaks finds the first mmap that still carries the descriptor's context |
| UserdMapping.ScanInvalidations | scripts/analyze_userd_mapping.py:96-106 | The loop raises `invalid` exactly when some later successful call disturbs the mapping |
| UserdMapping.CollectCandidates | scripts/analyze_userd_mapping.py:69-115 | The outer loop with its scans returns the list that the candidate function defines, in log order; `ChannelAcceptance` says which RM maps are on it |
| MappingSoundness.ContextKept | scripts/analyze_userd_mapping.py:81-91 | Between the RM map and the chosen mmap the descriptor keeps the context of that RM map |
| MappingSoundness.MmapShowsContext | scripts/analyze_userd_mapping.py:92-95 | After the chosen mmap every byte of it shows the matching byte of the mapped Memory generation |
| MappingSoundness.UndisturbedByStep | scripts/analyze_userd_mapping.py:96-106 | Any lawful event the invalidation scan passes over leaves the mapped bytes as they are |
| MappingSoundness.MappingIsLive | scripts/analyze_userd_mapping.py:69-117 | The whole chosen mmap still shows the Memory object at the end of the log |
| MappingSoundness.MappingIsSound | scripts/analyze_userd_mapping.py:46-122 | Soundness of acceptance, which `ChannelAcceptance` characterizes: if `resolve_channel` answers, replaying the whole log leaves all 512 bytes at the reported address showing the first USERD block that the live channel's own parameters name, in the last, still live allocation of that Memory handle; channel, Memory, class, parents, ring size and ring address are those reported, and the owners above are live |
| ChannelAcceptance.LayoutExactly | scripts/analyze_userd_mapping.py:46-68 | The layout is accepted if and only if the channel, its owners and the one Memory record of its first USERD handle are live under the replayed log and agree, and it is the one their parameters give |
| ChannelAcceptance.VmaExactly | scripts/analyze_userd_mapping.py:109-114 | A VMA is taken if and only if it is the only one of the list that contains the bytes, starts with `r` and ends with `s` in its permissions, and has the mmap's path, inode and matching file offset |
| ChannelAcceptance.CandidateExactly | scripts/analyze_userd_mapping.py:69-115 | An RM map is a candidate if and only if it maps the whole block from the channel's Memory and its first mmap in the same context survives: inside bounds, untouched by every later call, and shown by exactly one VMA |
| ChannelAcceptance.ResolveChannelExactly | scripts/analyze_userd_mapping.py:46-122 | For every log whose rows are numbered as its reader demands: `resolve_channel` answers with a given binding if and only if the layout holds, exactly one RM map has a surviving mmap, and the binding reports just these, field by field |
| UvmLifetime.SpaceLives | scripts/gpfifo_binding.py:27-38 | The UVM descriptor initialized before the registration keeps its space to the end of the log |
| UvmLifetime.VaspaceKept | scripts/gpfifo_binding.py:47-49 | The registered VA space stays registered under the GPU |
| UvmLifetime.ChannelKept | scripts/gpfifo_binding.py:50-51 | The channel stays registered with the space |
| UvmLifetime.HostIsUnique | scripts/gpfifo_binding.py:66-68 | At any time one live range at most hosts an address |
| GpfifoSoundness.RingStep | scripts/gpfifo_binding.py:69-78 | One event the loop lets pass keeps the ring's GPU bytes unless it frees the hosting range, in which case it loses them |
| GpfifoSoundness.RingSince | scripts/gpfifo_binding.py:69-78 | The same over all events since the mapping |
| RingSquare.RingSquareExactly | scripts/gpfifo_binding.py:10-93 | When both resolvers answer, which `ChannelAcceptance` and `RingAcceptance` characterize: the reported ring has as many entries as the channel was created with, and for every byte of it the replayed GPU map and the replayed CPU address space lead to the same byte of the same live Memory allocation, if and only if no later free names the range hosting the mapping |
| RingSquare.RingAddressSpaceIsOwned | scripts/gpfifo_binding.py:12-51 | At the end of the log the space the ring is mapped in has, for the GPU, the VA space under which the live channel's own live context share was created, itself a live child of the owned device; and the channel is registered with that space |
| RingSquare.RingCommutesWhenRangeNotRecycled | scripts/gpfifo_binding.py:66-78 | If no UVM free of the mapping's own base precedes the mapping, acceptance alone makes the square commute, for all entries the channel was created with |
| RecycledRange.AcceptedRingMayBeUnmapped | scripts/gpfifo_binding.py:66-75 | A concrete well-formed log on which both resolvers accept and no ring byte is mapped on the GPU any more |
| RingAcceptance.VaspaceExactly | scripts/gpfifo_binding.py:11-22 | The address space is resolved if and only if the live channel has a power of two of 1 to 4096 entries at a multiple of eight, and its context share and that share's VA space are live, older each, and below the owned group and device |
| RingAcceptance.UvmExactly | scripts/gpfifo_binding.py:23-51 | The UVM registrations are resolved if and only if the VA space, its descriptor, the mm and the channel are each registered by exactly one call in the right order, the mm with status 0 or 0x10006, on descriptors of the same identity that stay open, and nothing registers or unregisters them later |
| RingAcceptance.MappingExactly | scripts/gpfifo_binding.py:52-78 | The GPU mapping is resolved if and only if it is the only one over the whole ring, of type 1 to 3 for this GPU alone, of the live Memory generation the USERD binding names, in the one range created for it, and no later call upsets it |
| RingAcceptance.PlaceExactly | scripts/gpfifo_binding.py:79-93 | The CPU place is resolved if and only if the ring's bytes lie in the USERD's own RM map and mmap, at an aligned address shown by exactly one VMA |
| RingAcceptance.ResolveRingExactly | scripts/gpfifo_binding.py:10-93 | For every log whose rows are numbered as its reader demands: `resolve_ring` answers with a given binding if and only if these four hold, and the binding reports just these |
| BoundSets.Separate | scripts/analyze_graph_entry.py:25-29 | The check loop passes exactly when every ring is clear of all USERD blocks and all earlier rings |
| BoundSets.BindSetExactly | scripts/analyze_graph_entry.py:19-30 | `bind_set` answers with a given set if and only if the group is not empty, every member's block and ring resolve to those of the set, no two blocks share an address, and every ring lies apart from all 512-byte blocks and all other rings |
| BoundSets.DistinctExactly | scripts/analyze_userd_mapping.py:170-171 | The cardinality test on the set of addresses is pairwise distinctness |
| BoundSets.BlocksApart | scripts/analyze_userd_mapping.py:169-172 | USERD blocks of an accepted snapshot are pairwise disjoint, from distinctness and alignment alone |
| BoundSets.BoundSetsAreDisjoint | scripts/analyze_graph_entry.py:19-30 | For any number of channels, all USERD blocks and rings of an accepted set are pairwise disjoint |
| BoundSets.StoreStaysInside | scripts/analyze_graph_entry.py:19-30 | A store into one region of an accepted set changes no byte of another |
| Protocol.RunInvariant | src/main.cpp:625-635 | In every interleaving a set flag was stored by its setter, a passed wait follows that store, and nobody leaves a wait silently unless another participant threw |
| Protocol.HappensBefore | src/main.cpp:629-635 | Whatever its setter did before storing a flag precedes whatever follows a wait for it |
| Protocol.SomeoneCanMove | src/main.cpp:629-635 | No deadlock: while someone is unfinished, someone has a step that is not a spin |
| Protocol.RankDecreases | src/main.cpp:629-635 | Every non-spin step lowers a ranking of the remaining work |
| Protocol.ProtocolFinishes | src/main.cpp:686-701 | Every run is finite and can be continued until all three finish; a finished run completed everywhere or somebody threw |
| Protocol.RunElapsed | src/rm_handoff.hpp:235-236 | A wait for the clock that counts from a recorded time ends no earlier than that time and its interval, unless it may be cut short and the run was cancelled |
| Handoff.BAttests | src/main.cpp:477-526 | B goes to the device only once triggered; its launch is recorded before it is made and behind its begin event, its completion only when the end event was reached, which it publishes before it reads time and result |
| RmTrial.IsWellOrdered | src/rm_handoff.hpp:156-247 | The five conditions' programs set each flag once, in an order without circular waits |
| RmTrial.LaunchIsGuarded | src/rm_handoff.hpp:182-194 | Whenever B has launched, A was invalidated before; except in a live handoff A was pending then; under hold conditions the disable had been accepted before, and under preempting ones the preempt had returned |
| RmTrial.QueryFollowsCompletion | src/rm_handoff.hpp:195-199 | A's second query follows B's observed completion |
| RmTrial.RunKeepsAlive | src/rm_handoff.hpp:195-199 | In every interleaving of every condition, failing ones included, A's context is never destroyed, and where its state is recorded it is recorded alive, behind B's observed completion |
| RmTrial.CompletedEstablishes | src/rm_handoff.hpp:175-247 | A completed trial has A's context alive and recorded so, its end reached, its output and resources found right, and the answers to all three queries on record as they were given |
| RmTrial.RecordsAttest | src/rm_handoff.hpp:171-242 | In every interleaving, failing ones included: A goes to the device only once B has armed, its recorded launch and start attest begin event, launch and seen start marker, B is released only after a demanded preemption, and A's reuse begins only behind its right output |
| RmTrial.CompletedMakes | src/rm_handoff.hpp:156-242 | A completed trial has made every driver call of both participants, A's reuse and the trace mark included |
| RmTrial.LeavesInTime | src/rm_handoff.hpp:161-195 | Nobody leaves without an error once past its last quiet wait, and no wait fails anybody but A at its wait for B |
| RmTrial.HoldsLongEnough | src/rm_handoff.hpp:200-203 | In every interleaving A's event is queried again no earlier than the hold interval behind the time it counts from, and A is invalidated no earlier than the delay behind its start unless the run was cancelled |
| RmTrial.OrderChecksNeverFail | src/rm_handoff.hpp:248-253 | In every interleaving that completes, the final order checks hold |
| RmTrial.DisorderIsCaught | src/rm_handoff.hpp:248-253 | Whatever was recorded, the order checks refuse it exactly if one of the listed pairs of times is swapped |
| RmTrial.DisableIsUndoneOnce | src/rm_handoff.hpp:181-230 | In every interleaving, failing ones included: at most one accepted disable, and exactly one enable attempt for it once A's owner is through |
| RmTrial.EnableFollowsB | src/rm_handoff.hpp:195-230 | At that attempt B has published `b_done` or has already left `run_tiny` with an error |
| RmTrial.RmTrialFinishes | src/rm_handoff.hpp:151-254 | Every run ends, in completion with the order checks true and with all that a completed trial establishes, or with an error to rethrow |
| TrialControls.TrialStaysWithin | src/rm_handoff.hpp:181-230 | In every interleaving of a trial, at every point, the controls asked for are at most those of its condition, and just those once it completes |
| TrialControls.HasOutcome | src/rm_handoff.hpp:151-254 | Every run of a trial can be carried on to its end |
| Takeover.IsWellOrdered | src/main.cpp:637-697 | The four actions' programs set each flag once, in an order without circular waits |
| Takeover.LaunchIsGuarded | src/main.cpp:676-695 | On serial paths B launches only after A's destroy returned and was found successful; on the others only after the controller invalidated |
| Takeover.QueryFollowsCompletion | src/main.cpp:666-671 | A kept context is queried again only after B's observed completion |
| Takeover.RunKeepsAlive | src/main.cpp:666-675 | A kept context is never destroyed and is recorded alive after B |
| Takeover.RunDestroysFirst | src/main.cpp:676-683 | On the serial paths, in every interleaving: B launches only with A's context destroyed; it is destroyed only between the two destroy stamps, with A's end reached before exactly for wait-then-destroy; at the second stamp it is gone exactly if the driver said so; the recorded state is 0 |
| Takeover.CompletedEstablishes | src/main.cpp:637-697 | A completed takeover has A alive and recorded so exactly if its context is kept, its end reached exactly in a live handoff or wait-then-destroy, and the queries' answers on record |
| Takeover.RecordsAttest | src/main.cpp:650-675 | In every interleaving: A goes on only once B has armed, its recorded launch and start attest begin event, launch and seen start marker, and in the idle baseline it makes no call at all |
| Takeover.CompletedMakes | src/main.cpp:637-697 | A completed takeover has made every driver call of its action |
| Takeover.LeavesInTime | src/main.cpp:637-697 | Nobody leaves without an error once past its last quiet wait, and no wait fails anybody |
| Takeover.WaitsLongEnough | src/main.cpp:689-692 | But for the idle baseline, A is invalidated no earlier than the delay behind its start unless the run was cancelled |
| Takeover.OrderChecksNeverFail | src/main.cpp:702-709 | In every interleaving that completes, the final order check holds |
| Takeover.DisorderIsCaught | src/main.cpp:702-709 | Whatever was recorded, the order check refuses it exactly if one of the listed pairs of times is swapped, or a kept context has a destroy on record or was not found alive |
| Takeover.VerdictIsPending | src/main.cpp:702-709 | The verdict on a completed takeover depends on nothing but whether A was pending at its first query: refused in the idle baseline if it was, of no use in the other actions if it was not |
| Takeover.TakeoverFinishes | src/main.cpp:637-710 | Every run ends, in completion with the order check true and with all that a completed takeover establishes, or with an error to rethrow |
| Hardware.BitTest | src/userd_observer.cpp:349-350 | `n & (n - 1)` is zero exactly for the powers of two, up to the largest ring |
| Observer.SampleFollowsPrevious | src/userd_observer.cpp:319-346 | In any log the observer ever wrote, behind sample k stands sample k-1 of the same window, with nothing but marks between |
| Observer.CheckBlocks | src/userd_observer.cpp:309-312 | The nested loops accept exactly 1 to 32 nonzero, 512-aligned, pairwise distinct addresses |
| Observer.CheckRing | src/userd_observer.cpp:349-350 | The bit test accepts exactly aligned rings with a power-of-two entry count up to 4096 |
| Observer.CheckRings | src/userd_observer.cpp:406-410 | The nested loops accept exactly usable rings at pairwise distinct addresses |
| Observer.ReadChannels | src/userd_observer.cpp:366-379 | One reading per armed address, numbered in order, from that address |
| Observer.ReadTwice | src/userd_observer.cpp:329-343 | Both loads of every armed block, channel by channel, numbered in order |
| Observer.ReadRings | src/userd_observer.cpp:440-455 | Every armed ring is read twice, over all its entries, each entry from its own address |
| Observer.State.Emit | src/userd_observer.cpp:82-95 | A captured call inside a window fails the capture; a wrong owner, no log or a full log adds nothing and fails; a number is spent even when the write fails |
| Observer.State.Begin | src/userd_observer.cpp:279-297 | Recording starts once, with the start row, exactly if that row can be logged |
| Observer.State.Mark | src/userd_observer.cpp:298-303 | A plain label is logged exactly if the capture is sound and the row can be written, and fails the capture otherwise; a window survives it |
| Observer.State.Capture | src/userd_observer.cpp:82-116 | Any captured call inside a window, or one of unknown layout, makes failure permanent, and nothing else does but a row that cannot be logged |
| Observer.State.IsOk | src/userd_observer.cpp:304 | An unfailed log is numbered 1..n with n at most 20000, as the log reader demands |
| Observer.State.ArmReads | src/userd_observer.cpp:305-318 | A window opens exactly when the capture is sound, none is open, the sequence is current and the blocks are usable; otherwise nothing changes |
| Observer.State.ArmRing | src/userd_observer.cpp:347-355 | With one usable ring a window opens under the same conditions, and nothing changes otherwise; whatever other threads do between the two locked sections, the ring is attached exactly if the capture has not failed meanwhile |
| Observer.State.ArmRingSet | src/userd_observer.cpp:404-416 | The same with one usable ring per channel |
| Observer.State.Interleave | src/userd_observer.cpp:298-458 | Any sequence of entry points, each with its own time, memory and write result, keeps the log's promises, only ever appends, and never takes a failure back |
| Observer.State.TakeSample | src/userd_observer.cpp:319-346 | A sample is taken exactly when capture, window, owner, rounds, time and log allow it; it is then logged with the next round number, its label and call, and both loads of every armed block, and the capture fails otherwise |
| Observer.State.TakeRingSample | src/userd_observer.cpp:356-395 | The same inside a window armed with a ring, with the ring's entries read twice between the passes |
| Observer.State.TakeRingSetSample | src/userd_observer.cpp:417-458 | The same inside a window armed with a ring set, with all rings read, handing out the PUT values of the second pass |
| Observer.State.FinishReads | src/userd_observer.cpp:396-403 | The result is positive exactly for a sound window with samples whose mark can be logged; a result r > 0 means that between the armed row and the finish mark the log holds exactly r samples numbered 0..r-1 and otherwise only marks |
| EntryWindows.ReadLaunch | src/userd_mapping.hpp:215-227 | One launch adds its eleven samples in order: frame, frame with the call, eight progress samples without any, frame; a failed call ends it |
| EntryWindows.WantsAccepted | scripts/analyze_gpfifo_entry.py:116-155 | Rows that are the probe's samples, numbered from 0, pass the analyzer's checks on labels, rounds, three frames a launch and the calls beside them |
| EntryWindows.CheckEntryWindow | scripts/analyze_gpfifo_entry.py:116-155 | The analyzer's pass accepts exactly the windows with the expected kinds and labels, rounds from 0, no call beside progress samples, and three frames a launch of which the second records the successful call |
| EntryWindows.CheckGraphWindow | scripts/analyze_graph_entry.py:116-118 | The analyzer accepts exactly four ring-set samples of the case, numbered from 0, in phase order |
| EntryWindows.EntryProbe | src/userd_mapping.hpp:192-233 | From the armed ring to the finish mark, fill loop included: a positive result means 23 samples, 24 with a prepared wrap, and rows that pass the analyzer's window checks as they stand; in any memory that follows the ring they pass its wrap check if and only if PUT stood where the plan said; if nothing is in the way, the result is positive |
| EntryWindows.WrapExactly | scripts/analyze_gpfifo_entry.py:132-135 | Launch count, PUT of the first frame and last slot in the second are as demanded if and only if PUT had not moved since the plan |
| EntryWindows.ArmAndProbe | src/userd_mapping.hpp:192-233 | The same with the arming in front and no other thread in between: the window the analyzer accepts starts right behind the snapshot's row |
| EntryWindows.GraphProbe | src/graph_entry.hpp:154-181 | The same for a graph case: four samples of that case in phase order, as the analyzer demands; with a prepared wrap the number of preparing launches and the PUT before the measured launch are those it recomputes; if nothing is in the way, the result is positive, with a wrap only if the ring had room and was then filled up |
| RingInterval.IntervalMembers | scripts/analyze_graph_entry.py:69-71 | Which slots an interval holds, wrapped or not |
| RingInterval.IntervalInjective | scripts/analyze_graph_entry.py:69-71 | An interval names no slot twice |
| RingInterval.IntervalsCompose | scripts/analyze_graph_entry.py:69-71 | Two adjacent intervals concatenate to the outer one if and only if their deltas sum below the ring size |
| RingInterval.WrapIsLastSlot | scripts/analyze_graph_entry.py:79-86 | `wrap_observed` holds if and only if the interval contains the last slot |
| EntryFrames.StableFrame | scripts/analyze_gpfifo_entry.py:63-78 | The loops accept exactly double reads that agree, ordered non-overlapping field reads inside the ring, and PUTs unchanged across the frame |
| EntryFrames.ValidateFrame | scripts/analyze_graph_entry.py:60-66 | A frame passes exactly when every ring is present, sized and stable |
| EntryFrames.CompareFrames | scripts/analyze_graph_entry.py:74-87 | One change per ring, with interval, changed slots, both differences, exact coverage and wrap as the two frames imply them |
| EntryFrames.ExactMeansEqualCounts | scripts/analyze_graph_entry.py:80-86 | With exact coverage as many slots changed as PUT advanced |
| EntryFrames.SamePublication | scripts/analyze_graph_entry.py:90-92 | Two valid frames show the same publication exactly when comparing them finds every interval empty and no slot changed |
| EntryFrames.AttributedExactly | scripts/analyze_gpfifo_entry.py:81-92 | On stable frames `attribute_launch` returns s if and only if the active ring's interval and changed set are both [s] and no other PUT moved |
| RingProducer.DeltaIsCount | scripts/analyze_graph_entry.py:69-83 | The compared delta is the number of submissions modulo the ring, hence equal to it if and only if there were fewer than the ring has slots |
| RingProducer.ProduceWrites | scripts/analyze_graph_entry.py:74-87 | Up to one turn of submissions write exactly the interval's slots, each with its own word |
| RingProducer.RingsAreIndependent | scripts/analyze_graph_entry.py:74-87 | Interleaved submissions act on each ring as its own alone |
| RingProducer.ComparisonFindsSubmissions | scripts/analyze_graph_entry.py:74-87 | After any interleaved submissions, fewer per ring than slots: delta is the count, nothing changed outside, unchanged inside exactly where the stored word was already there |
| RingProducer.FillToLastSlot | src/graph_entry.hpp:162-170 | The fill loop either stops at a failed audit or lands PUT on the last slot, having written just the slots on the way |
| RingProducer.NextTwoSlots | src/userd_mapping.hpp:200-227 | The next two one-entry launches own the last slot and slot 0, and only the first wraps |
| RingProducer.LaunchIsAttributed | scripts/analyze_gpfifo_entry.py:81-92 | A one-entry launch is attributed to the slot it filled if and only if the stored word differs from the one before |
| Residency.Pair | scripts/analyze_hold_trace.py:63-73 | The loop fails exactly at a repeated restore; otherwise its intervals give, for every context and every range ending by the trace end, exactly the replayed number of resident instants |
| Residency.ResidencyIsAMeasure | scripts/analyze_hold_trace.py:123-125 | Residency of adjacent ranges adds up, never exceeds the range, fills it exactly when resident throughout, and is 0 exactly when never resident |
| Clock.ClockAnchor | src/main.cpp:593-601 | The anchor kept is the first narrowest of the seven probe runs |
| Clock.Measurement.EstimateStart | src/main.cpp:603-623 | Valid exactly if the GPU samples are monotone, both anchors allow a common offset and some start is possible; then the bounds are exactly the starts within the run that an offset allowed by either anchor gives, and the estimate is the midpoint; an invalid one leaves the bounds untouched; bracket and offset change are reported either way |
| Clock.AcceptedMeans | src/main.cpp:614-617 | The three comparisons hold exactly if the GPU samples are monotone, both anchors allow a common offset, and some start within the run is allowed by either |
| Clock.OffsetMakesValid | src/main.cpp:603-623 | With monotone GPU samples, any constant offset consistent with both anchors and the run makes the estimate valid and puts the true start inside |
| Clock.EnvelopeWidth | src/main.cpp:610-622 | The envelope is never wider than both anchors together, nor than the run's bracket |
| Clock.OffsetExistsExactly | src/main.cpp:614-617 | A constant offset exists if and only if the estimate is valid and the run also reaches what both anchors share |
| Clock.ValidWithoutOffset | src/main.cpp:606-617 | A valid estimate that no constant offset explains |
| Clock.BoundsAreExact | scripts/analyze_nsys.py:75-81 | The API bounds are exactly the kernel starts that some admissible offset gives |
| Clock.AlignmentMeaning | scripts/analyze_nsys.py:80-82 | The bounds are ordered exactly when the call is no wider than the host bracket; alignment is valid exactly when an offset exists and all admissible ones start the kernel between mark and completion |
| GraphCapture.PlaceNodes | src/graph_entry.hpp:27-43 | The array loop succeeds exactly when every node is a plain kernel on a slot of its own, and then holds each handle at its slot |
| GraphCapture.PlacedFillsAll | src/graph_entry.hpp:26-43 | As many nodes as slots, each on its own, leave no slot unserved |
| GraphCapture.CheckEdges | src/graph_entry.hpp:44-51 | Counting one match per chain link accepts exactly the permutations of the chain's edges |
| GraphCapture.Capture | src/graph_entry.hpp:19-51 | For any count the topology test passes if and only if the nodes biject onto the result slots and the edges are a permutation of the chain through them |
| ProgressProbe.ValidateSamples | scripts/analyze_userd_progress.py:43-74 | The validator accepts exactly the traces with consecutive rounds, the fixed labels around at least one query, API brackets and results by label, ordered reads and the time budget |
| ProgressProbe.Probe.Read | src/userd_observer.cpp:319-346 | A sample with the next round and properly nested clock readings; it is refused exactly when the rounds are used up, the clock has reached the arming time plus three seconds, or the row is not logged |
| ProgressProbe.Probe.Queries | src/main.cpp:497-508 | Only not-ready queries, then a successful one, or no completion |
| ProgressProbe.Probe.Run | src/userd_mapping.hpp:131-149 | A completed run has 31 samples besides the queries, those without a call marked so, and is accepted exactly when it ended inside the time budget, so always if its last sample ended before the observer's deadline; if nothing goes wrong it completes |
| ProgressProbe.CompletedButRejected | scripts/analyze_userd_progress.py:46-51 | A concrete clock and one channel with which the probe completes within its own deadline checks and is rejected |
| ProgressProbe.CompletedIsAccepted | scripts/analyze_userd_progress.py:43-74 | Samples in the generator's shape satisfy every other demand of the validator |
| ProgressWindow.ReadBoth | src/userd_observer.cpp:319-346 | The probe's own model of a sample and the observer's entry take or refuse the same read, and the logged row records the sample: round, label, call and all four words a channel |
| RewindEvidence.Analyze | scripts/analyze_rewind.py:28-72 | The loop accepts exactly when there is one main row per result that says the same, all tokens are nonzero and distinct, no row it reads is broken, every attempted control is found in the journal with its kind and times, and every preserved record passes the gate |
| RewindEvidence.LookupFinds | scripts/analyze_rewind.py:28-62 | In a journal in order the lookup passes exactly for a control whose own entry stands in it |
| RewindEvidence.TokensDistinctExactly | src/rewind_experiment.hpp:27-31 | All old and new tokens differ if and only if there are at most 2^28 slots |
| Rewind.Experiment.Api | src/rewind_experiment.hpp:80-90 | Two rows per call, unless a row cannot be written; a CUDA error is thrown exactly for a logged result other than success and not-ready |
| Rewind.Experiment.HoldQueries | src/rewind_experiment.hpp:158-166 | Unless a call fails it queries at least once and for at least the hold time; if the hold still counts as pending, every query in it returned not-ready |
| Rewind.Experiment.RunCase | src/rewind_experiment.hpp:111-226 | A case recorded as preserved passes the analyzer's gate; valid ones held throughout; a logged error always means poisoned, and so does a new event completed without its output; at most two controls are asked for and journaled, two if the case is valid; in an environment in which the hold works the case is preserved |
| Rewind.Experiment.Run | src/rewind_experiment.hpp:107-240 | Slot index is trial times cases per trial plus order, in bounds; a paired run rewinds in the cases with trial plus order odd, a single one as its case says, and the journal's disables rewind in just these; no case follows an invalid one or lost evidence; the run stops exactly at an invalid case, a failed calibration, a failed row, journal or closing evidence; the analyzer accepts what is left exactly under the conditions listed above; two controls per case, and all cases preserved where the hold works |
| Rewind.OneOfEachKind | src/rewind_experiment.hpp:108-110 | A full trial of a paired run has one case of each kind |
| Rewind.AcceptedExactly | scripts/analyze_rewind.py:30-72 | For good records: acceptance means whole rows of at least one case, an unbroken call log of the last one, and all controls in the journal |
| Rewind.CompletesAccepted | src/rewind_experiment.hpp:107-240 | For every plan a run in which every case is preserved and everything is kept completes and is accepted |
| Rewind.RejectedWithoutJournal | scripts/analyze_rewind.py:45-49 | A concrete run whose only case is preserved and whose journal is not saved is rejected |
| ControlBudget.RotationUsesAll | src/rm_handoff.hpp:313-315 | Whatever the trial number, the rotated order runs every case once |
| ControlBudget.BudgetIsExact | src/rm_handoff.hpp:41 | The budget covers a completed run in every kind and equals it for the disable kind of hold and rewind runs |
| ControlBudget.TotalUses | src/rm_handoff.hpp:300-339 | The controls of a completed run by case, in numbers of trials: which kinds, how many for preparing, how many for each trial, and the budget |
| ControlBudget.Bridge.Trial | src/rm_handoff.hpp:316-336 | Around whatever outcome an interleaving of the trial's threads has: at most the controls of the condition, and just those when it completes |
| ControlBudget.Bridge.RewindRun | src/rewind_experiment.hpp:107-233 | The rewind experiment asks for no more controls than two per case, and for just those when it completes, as counted over its case machine; `rewind-true` journals a rewind with every disable, `rewind-false` with none, `rewind-paired` with the second and third of every four |
| ControlBudget.Bridge.Run | src/rm_handoff.hpp:294-339 | Every run, failing ones included, stays within the budget for every kind; a completed run has used the totals of its case, a hold or rewind run the whole budget of its kind; rewinds are journaled as the case says |
| Numerals.ReadsDecimal | src/graph_entry.hpp:141 | A printed number is extracted again exactly when it fits the type read into |
| PlanText.PrintGraphPlan | scripts/analyze_graph_entry.py:33-38 | The printing loop yields header and one numbered row per member |
| PlanText.ReadGraphPlan | src/graph_entry.hpp:139-153 | The reading loop with its checks is the reader the round trip is about |
| PlanText.ReadUserdPlan | src/userd_mapping.hpp:105-121 | The same for the USERD plan, keeping the addresses |
| PlanText.GraphPlanRoundTrip | src/graph_entry.hpp:139-153 | Reading a printed graph plan with anything behind it returns exactly the printed plan if it is the reader's own, fits its types and only whitespace follows, and is refused otherwise |
| PlanText.UserdPlanRoundTrip | scripts/analyze_userd_progress.py:28-32 | The same for the USERD plan, whose addresses and entry counts must also be sane |

## Left out

- MappingSoundness.MappingIsSound: the object table is flat, so freeing a parent does not free its children here; the code covers parents with generation fields and sequence checks.
- MappingSoundness.MappingIsSound: an unmap control that names the Memory object is taken to drop every CPU page of that object (the worst case), and leaves a pending mmap context of a descriptor in place.
- RingSquare.RingSquareExactly: duplicated descriptors and system calls outside the captured libc paths are not part of the log.
- Observer.State.Begin: it takes no lock, so it is taken to run before any other thread uses the observer.
- Observer.State.Capture: system calls carry only a name; decoding their payloads is left out, because it follows the driver's ABI and not the log's rules, and a partly written row counts as lost.
- Observer.State.TakeSample: the clock readings inside a sample are not part of the row here; `ProgressProbe` has them for the progress window and `EntryFrames` for frames, and the analyzers' checks on time spans are stated there.
- EntryWindows.WantsAccepted: the wrap check is stated with `EntryWindows.EntryProbe`, the rest of the frames' contents in `EntryFrames` and `RingProducer`.
- EntryWindows.EntryProbe: the spans between samples and the three-second budget are clock checks and left out, as is the comparison of the frames' contents, which is in `EntryFrames` and `RingProducer`.
- Protocol.RunInvariant: what a device answers to a question is arbitrary but fixed for the run, and a failed destroy leaves the context as it was.
- Protocol.ProtocolFinishes: each wait is one step, which is exact because flags are only ever set; atomics are sequentially consistent, clock reads do not fail, and a CUDA call returns or throws.
- Clock.Measurement.EstimateStart: times are exact reals; rounding of `long double` and `double` is not modelled.
- ProgressProbe.Probe.Run: the clock may stand still or jump but never runs backwards; the final check of the copied result value and the row write at file level are outside; a missing row is modelled by `logged`.
- Rewind.Experiment.RunCase: the classification is made over arbitrary results and memory, assuming that a published token stays put, a created stream is new and the clock advances; a call row cut off behind the last field the analyzer reads counts as unwritten, which changes nothing for the analyzer.
- RewindEvidence.Analyze: process, target object and the payload bytes besides the two flags are not compared, because the bridge that writes the journal is not part of this model; it is taken to journal what it was asked and its own result, in order, and a save that fails to leave the journal on disk as it was.
- Rewind.Experiment.Run: a process killed from outside is not modelled; metadata and the identity written before the first case are taken to be there.
- ControlBudget.Bridge.Run: every control asked for is counted, accepted or not; the bridge's own enforcement is not shown in the repository.
- PlanText.ReadGraphPlan: extraction follows the C locale. The GPFIFO plan of the entry probe is left out: it is one line read field by field with the extraction proved here.
- Reading frames from hardware, LFENCE and global-timer freshness: the code disclaims atomicity, so a frame is data.
- JSON, CSV and metadata files, `/proc` parsing, the snapshot's profile checks, command-line parsing and the launcher: plumbing.
- SQLite queries, the lookup of a kernel's launch and `summarize.py`: they select and tabulate rows and decide nothing about a run.
- `active_channel`: it picks the one channel whose PUT moved; the checks that follow do not depend on how it was picked.
- `Worker` queueing, calibration, NVTX, device kernels and results: no contract of their own, or floating point.
