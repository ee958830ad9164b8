# Verified models of the messaging core

This project models the parts of the PAMI messaging library that keep state across callbacks, and
proves what they are for. `dafny verify dfyconfig.toml` checks the whole project.

| part | modules |
|---|---|
| Allgather executor and its binomial schedule | `Cyclic`, `AllgatherSchedule`, `AllgatherSteps`, `AllgatherExecutor`, `AllgatherProtocol`, `AllgatherCorrect`, `AllgatherProgress`, `AllgatherTheorems`, `AllgatherEarlyArrival` |
| Many-to-many with pacing, as an all-to-all of n members | `PacedSender`, `PacedSenderCode`, `ManyToManyReceiver`, `AllToAll`, `AllToAllCorrect`, `AllToAllTheorems`, `ConnectionReuse` |
| Shared-memory initialisation barrier | `InitBarrier` |
| Multi-colour composite | `ColorTiling`, `ColorCoverage`, `CompositeCompletion`, `ColorComposite` |
| Reduction and location kernels | `ReductionKernels`, `ReductionTrees`, `MaxLoc` |
| Group hash and connection ids | `Bits`, `JenkinsHash`, `ConnectionIds` |
| Shared | `Sets` |

Each protocol is a step machine over values. A run is any sequence of enabled steps: sends complete
inside the posting call or later, messages overtake each other, and participants are scheduled
arbitrarily. Where the source updates an object in place there is a class whose methods are proved to
take exactly the machine's steps, so that what holds of every run holds of the code. The main
theorems are statements over all runs, all group sizes and all contents:

* **Allgather.** A member that finishes holds block j of member j at position j, whatever the
  interleaving and however early messages arrive; no reachable state is stuck; an outstanding send's
  data cannot be overwritten. This holds for every schedule that meets a contract, and the
  shipped binomial schedule is proved to meet it for every group size.
* **Several sources per phase.** The code does not support them: a phase is left with all of its
  receives if and only if it has one source or no header for it came before it was entered; it can be
  left at all if and only if no more receives are in than the code expects; and a schedule never
  leaves short, and never jams, if and only if every phase has one source.
* **All-to-all.** With any number of operations overlapping under different connection ids, a member
  whose receive callback has run holds exactly the blocks meant for it, callbacks fire once, sends go
  out in permuted order with at most a window of them open, no state is stuck and every run ends.
  An id may be reused once its operation has called back on every member, so that sequence numbers
  are safe while no operation runs a whole window ahead; without such a rule ids must not be shared.
* **Barrier.** No slave returns before everything is cleared and everyone has entered, and every fair
  schedule brings everyone out within a bound, with every byte zero.
* **Composite.** The colours move every data byte exactly once and no gap, through work queues that
  hold what is to be moved, if and only if there is one colour, the elements have no gaps, or the cut
  falls between elements in data and memory alike; over any number of rounds the user is called once
  per round and never while executors are being started.
* **Kernels.** The unrolled in-place kernel is a left fold of the original columns; any tree of
  calls over the same sources gives the same result when the operator is associative and commutative.
* **Identifiers.** The hash is a bijection before its mask; ids repeat exactly every window.

Two comments in the source disagree with its code, and the model follows the code:
`util/ccmi_util.h:99` speaks of a 27-bit value where the mask keeps 21 bits, and
`algorithms/connmgr/CommSeqConnMgr.h:29-33` describes phase bits that are never encoded.

## Model

| member | source | states |
|---|---|---|
| `AllgatherSchedule.BinomialInit` | algorithms/schedule/GenericTreeT.h:187-271 | the loop, with the caller as root, fills a binomial schedule for every member and group size: as many phases as the logarithm of n rounded up, in phase k a partner n / 2^(k+1) places to the right rounded up, and the nodes between that and the distance before |
| `AllgatherSchedule.PhasesAreLog` | algorithms/schedule/GenericTreeT.h:255-260 | the number of phases is the least k with 2^k >= n |
| `AllgatherSchedule.SpanIsCeiling` | algorithms/schedule/GenericTreeT.h:204 | the big subtree of phase k has n / 2^(k+1) nodes, rounded up |
| `AllgatherSchedule.BinomialMeetsContract` | algorithms/schedule/GenericTreeT.h:199-249 | run backwards, the schedule starts at distance 1, never asks for more blocks than are held, adds up phase by phase and ends with all n blocks, for every n |
| `AllgatherSchedule.BinomialRightList` | algorithms/schedule/GenericTreeT.h:368-395 | the answer in the executor's phase p is the member `dist[p]` places to the right with `len[p]` blocks |
| `AllgatherExecutor.AllgatherExec.SendNext` | algorithms/executor/Allgather.h:343-424 | the in-place code leaves the state and the posted messages that the value-level step prescribes, including the two-part rotation after the last phase |
| `AllgatherExecutor.AllgatherExec.Start` | algorithms/executor/Allgather.h:324-340 | the same for starting, including the empty gather that calls back at once |
| `AllgatherExecutor.AllgatherExec.NotifySendDone` | algorithms/executor/Allgather.h:271-293 | the same for a completed send: the record's count drops by its partner count, and a count of zero enters the next phase |
| `AllgatherExecutor.AllgatherExec.NotifyRecvDone` | algorithms/executor/Allgather.h:295-313 | the same for a completed receive of any phase |
| `AllgatherExecutor.AllgatherExec.NotifyRecv` | algorithms/executor/Allgather.h:427-482 | the same for a header: which slot is answered, and how a record is set up when the phase is not yet known |
| `AllgatherSteps.StartsSilently` | algorithms/executor/Allgather.h:329-340 | a start posts nothing if and only if there are no phases, or no data and a callback to call |
| `AllgatherSteps.Unrotated` | algorithms/executor/Allgather.h:407-418 | the final layout moves staging position k to the member k places to the right, for all k |
| `AllgatherCorrect.PrefixHeld` | algorithms/executor/Allgather.h:342-406 | the phase invariant: before phase p the staging buffer holds the blocks of the members from one's own on, up to the distance of p |
| `AllgatherCorrect.StepKeeps` | algorithms/executor/Allgather.h:271-482 | every action of every member and of the network keeps the invariant |
| `AllgatherCorrect.RunKeeps` | algorithms/executor/Allgather.h:271-482 | so does every run |
| `AllgatherTheorems.GathersEverything` | algorithms/executor/Allgather.h:335-424 | in every reachable state a finished member's result is block j at position j for all j and its callback fired once; an unfinished member's has not fired |
| `AllgatherTheorems.BinomialGathersEverything` | algorithms/geometry/P2PCCMIRegInfo.h:1774-1793 | the same, result and callbacks, for the shipped schedule, with no assumption on it |
| `AllgatherTheorems.BinomialMember` | algorithms/executor/Allgather.h:357 | what the schedule's arrays hold on a member configures its executor as that member of the group |
| `AllgatherTheorems.AdvancesOnBoth` | algorithms/executor/Allgather.h:279-312 | the phase counter never goes back, moves by one at most, and moves only on the completion that makes both the phase's send and its receive done |
| `AllgatherTheorems.NegativeOnlyForCurrent` | algorithms/executor/Allgather.h:279-312 | a record's count is negative if and only if its phase is current, its send done and its receive not; records not set up count zero, as the two assertions demand |
| `AllgatherTheorems.OutstandingContent` | algorithms/executor/Allgather.h:381-402 | while a send is outstanding its buffer holds the blocks it is meant to carry |
| `AllgatherTheorems.StableWhileOutstanding` | algorithms/executor/Allgather.h:365-402 | reading the buffer at any two moments of an outstanding send gives the same blocks |
| `AllgatherTheorems.WritesBehindOutstanding` | algorithms/executor/Allgather.h:447-456 | no arriving block, however early, is written into the prefix being sent or outside the buffer |
| `AllgatherTheorems.NeverStuck` | algorithms/executor/Allgather.h:271-482 | in every reachable state with an unfinished member some action is enabled that brings something new |
| `AllgatherTheorems.BoundedNews` | algorithms/executor/Allgather.h:271-482 | the number of actions that bring something new is bounded by the group alone |
| `AllgatherTheorems.AlwaysCanFinish` | algorithms/executor/Allgather.h:271-482 | from every reachable state some continuation finishes every member |
| `AllgatherTheorems.EveryGroupGathers` | algorithms/executor/Allgather.h:324-424 | from every initial state, whatever the buffers hold, of every group and schedule that meets the contract, some run finishes all members with everything in place |
| `AllgatherProgress.Progress` | algorithms/executor/Allgather.h:342-406 | the member in the lowest phase, or its source, can always move |
| `AllgatherEarlyArrival.StepKeeps` | algorithms/executor/Allgather.h:271-482 | one executor under any schedule, with any number of sources per phase: every start, header, receive and send keeps what its records mean |
| `AllgatherEarlyArrival.LeftCompleteIff` | algorithms/executor/Allgather.h:279-312 | in every run, a phase is left with all of its receives if and only if it has one source or no header for it came before it was entered |
| `AllgatherEarlyArrival.LeavableIff` | algorithms/executor/Allgather.h:279-312 | in every reachable state, some continuation leaves the current phase if and only if no more receives are in than its quota: one after an early header, otherwise the number of sources |
| `AllgatherEarlyArrival.JammedForEver` | algorithms/executor/Allgather.h:279-312 | with more than that the phase is left in no continuation; it takes an early header and several sources |
| `AllgatherEarlyArrival.CanJam` | algorithms/executor/Allgather.h:463 | for every phase with several sources of every configuration a run jams it |
| `AllgatherEarlyArrival.NeverJamsIff` | algorithms/executor/Allgather.h:441-464 | for every configuration: no run jams if and only if every phase has one source, or the gather is empty |
| `AllgatherEarlyArrival.SafeIff` | algorithms/executor/Allgather.h:441-464 | for every configuration: phases are left complete in all runs if and only if every phase has one source, or the gather is empty and nothing is sent |
| `AllgatherEarlyArrival.LeavesShort` | algorithms/executor/Allgather.h:463 | for every phase with several sources of every configuration a run leaves it after one of them |
| `AllgatherEarlyArrival.AstrayIff` | algorithms/executor/Allgather.h:436-475 | at any time, also after the phase was left short, a header is answered with another source's slot if and only if it is not of the first source and another header came before the phase was entered |
| `AllgatherEarlyArrival.ShortGather` | algorithms/executor/Allgather.h:441-464 | with three members and two sources per phase, a member calls back and delivers a block that never came |
| `PacedSender.StepKeeps` | common/NativeInterface.h:2155-2275 | every post, completion (inside a call or later) and loop exit keeps the sender's invariant |
| `PacedSender.Covers` | common/NativeInterface.h:2155-2275 | in every run destinations are posted in permuted order, each once, with never more than a window uncompleted, and all of them when the last completes |
| `PacedSender.FullWindows` | common/NativeInterface.h:2155-2275 | while no post is active, all destinations of the windows begun are posted: as many as the next multiple of the window above the completions, or all |
| `PacedSender.CallsBackOnce` | common/NativeInterface.h:2897-2914 | the done callback has fired once if all destinations have completed, and not otherwise |
| `PacedSender.NeverNests` | common/NativeInterface.h:2208-2275 | the posting loop is never entered while one is active: at most two posting calls are on the stack, one of them in its last lines |
| `PacedSender.NeverStuck` | common/NativeInterface.h:2208-2275 | some step is possible exactly as long as the operation is not finished |
| `PacedSender.NothingToSend` | common/NativeInterface.h:2155-2214 | without participants, or with no window, nothing is ever sent, no callback fires, and nothing can happen after the first post returns |
| `PacedSender.Terminates` | common/NativeInterface.h:2155-2275 | no run takes more than six steps per destination and one more |
| `PacedSenderCode.ManyToManySend.PostManytomany` | common/NativeInterface.h:2155-2214 | the code takes a run of the machine from its beginning, whatever completes inside `simple` |
| `PacedSenderCode.ManyToManySend.PostNext` | common/NativeInterface.h:2234-2275 | so does the loop for further windows, and it leaves no post active |
| `PacedSenderCode.ManyToManySend.SendM2mDone` | common/NativeInterface.h:2897-2914 | so does a completion, which posts nothing itself while a post is active |
| `PacedSenderCode.ManyToManySend.Operation` | common/NativeInterface.h:2116-2279 | a whole operation sends to every destination in permuted order and calls back exactly once |
| `ManyToManyReceiver.ManyToManyRecv.HandleM2m` | common/NativeInterface.h:2742-2858 | the code finds or creates the connection's state, stores the data in the origin's slot and counts, as the value-level step prescribes; a header whose data is still to come changes neither slots nor callbacks |
| `ManyToManyReceiver.ManyToManyRecv.RecvDone` | common/NativeInterface.h:2918-2941 | counting down changes the first state of the connection in place, and takes it out of the queue and calls back at zero |
| `ManyToManyReceiver.ManyToManyRecv.FindState` | common/NativeInterface.h:2744-2746 | the walk stops at the first state of the connection, or at the end of the queue |
| `ManyToManyReceiver.ArriveKeeps` | common/NativeInterface.h:2742-2858 | an arrival on one connection keeps what holds of all of them |
| `ManyToManyReceiver.LandKeeps` | common/NativeInterface.h:2918-2941 | so does the completion of data that comes after its header |
| `ManyToManyReceiver.Serves` | common/NativeInterface.h:2742-2941 | over any arrival order that mixes connections: dispatch ran once per operation if a message came, the callback once if all are complete, the state is queued exactly in between, and each slot holds its own origin's block if complete and is untouched if not |
| `ManyToManyReceiver.ServesByEvents` | common/NativeInterface.h:2742-2941 | the same in terms of the headers and data that came, without the receiver's own notes: the callback has run once exactly when the data of every origin landed, came with its header or was empty |
| `AllToAll.PermutationHits` | common/default/Topology.h:1141-1152 | the permuted indices are all the indices, each once |
| `AllToAllCorrect.StepKeeps` | common/NativeInterface.h:2116-2941 | every step of senders, network and receivers keeps the invariant that ties packets, sender logs and receiver states together |
| `AllToAllTheorems.ReceivesExactly` | common/NativeInterface.h:2742-2941 | in every reachable state each slot holds the block its origin had for this member or what it held before, and the receive callback ran once if all are in and not otherwise |
| `AllToAllTheorems.DeliversEverything` | common/NativeInterface.h:2116-2941 | a member whose receive callback has run holds from every origin the block meant for it |
| `AllToAllTheorems.SendsExactly` | common/NativeInterface.h:2116-2914 | each member sends to each destination at most once and in permuted order, within its window, with one callback after the last completion |
| `AllToAllTheorems.NeverStuck` | common/NativeInterface.h:2116-2941 | while anything is unsent or unreceived some step is enabled |
| `AllToAllTheorems.Terminates` | common/NativeInterface.h:2116-2941 | every run's length is bounded by the operations alone |
| `AllToAllTheorems.AlwaysCanFinish` | common/NativeInterface.h:2116-2941 | from every reachable state some continuation completes every operation on every member |
| `ConnectionReuse.ReuseIsSafe` | common/NativeInterface.h:2742-2775 | when an operation starts only while no other one with its id is open, the queues searched by id hold exactly the states of the operations in every run, which is then a run of the model |
| `ConnectionReuse.ReuseDelivers` | common/NativeInterface.h:2742-2941 | in such a run a member whose receive callback has run holds the blocks meant for it |
| `ConnectionReuse.ReuseNeverStuck` | common/NativeInterface.h:2742-2941 | the rule never blocks everything |
| `ConnectionReuse.ReuseCanFinish` | common/NativeInterface.h:2742-2941 | from every state of such a run a continuation that keeps the rule completes every operation |
| `ConnectionReuse.WindowIsSafe` | algorithms/connmgr/CommSeqConnMgr.h:100-106 | with the ids of a communicator's sequence numbers it is enough to launch no operation before those a window back (2048, or 512) are served |
| `ConnectionReuse.AlwaysFollowsIff` | common/NativeInterface.h:2742-2775 | without a rule for starting operations, the queues searched by id hold the states of the operations in all runs if and only if no two operations share an id, apart from empty ones in a group of one |
| `ConnectionReuse.ClashRun` | common/NativeInterface.h:2744-2746 | for any other two operations that share one, a run in which a header is taken for one of the wrong operation |
| `InitBarrier.StepKeeps` | util/common.h:196-220 | every load, store and atomic add of any participant keeps the barrier's invariant |
| `InitBarrier.BumpsCounted` | util/common.h:209-211 | until it is cleared, `c0` holds its first contents and one more for each bump of the master |
| `InitBarrier.SlavesLeaveLast` | util/common.h:214-218 | whatever the counters held and whatever the schedule, a slave that has returned did so after everything was cleared and everyone had counted itself |
| `InitBarrier.MasterLeavesIff` | util/common.h:209-211 | the master's test succeeds if and only if every slave has counted itself |
| `InitBarrier.ReadyStays` | util/common.h:205-218 | a participant whose next step does real work keeps that chance whatever the others do |
| `InitBarrier.TwoRounds` | util/common.h:209-218 | two rounds of steps in any order make progress from any state that is not final |
| `InitBarrier.EveryoneReturns` | util/common.h:196-220 | from every reachable state, within a bound, every fair schedule brings everyone out with everything zero |
| `InitBarrier.CanAlwaysFinish` | util/common.h:209-218 | from every reachable state some fair continuation lets everyone return |
| `InitBarrier.CountersZeroed` | util/common.h:196-220 | for any counters and any number of participants all counters end up zero |
| `InitBarrier.MemoryZeroed` | util/common.h:238-263 | for a memory area of any length and word size every byte ends up zero, the tail after the last whole word included |
| `ColorCoverage.DeliversIff` | algorithms/composite/MultiColorCompositeT.h:159-198 | for elements of any size and extent: every data byte is moved by exactly one colour, no gap by any, and every colour's work queue is in order, if and only if there is one colour, no gap in the elements, or a cut between elements in data and memory alike (or neither colours nor data) |
| `ColorCoverage.TilesIff` | algorithms/composite/MultiColorCompositeT.h:188-196 | the offsets and byte counts alone, exactly: besides, they tile when there is no data and when a single element is cut at one place in data and memory |
| `ColorCoverage.TilingIsNotEnough` | common/default/PipeWorkQueue.h:194-211 | which is not enough: one element of 1024 bytes in 1100 is tiled by two colours, but the first one's queue holds nothing |
| `ColorCoverage.QueuesFit` | common/default/PipeWorkQueue.h:194-211 | cut between elements, every colour's stride is a multiple of the extent, as the work queue asserts, and the queue holds just the colour's bytes |
| `ColorCoverage.ContiguousDelivers` | algorithms/composite/MultiColorCompositeT.h:159-198 | data without gaps are delivered by any number of colours |
| `ColorCoverage.GapsDoNotTile` | algorithms/composite/MultiColorCompositeT.h:166-167 | 96 elements of 8 bytes that lie 16 bytes apart are not tiled by two colours |
| `ColorCoverage.GapsMayDeliver` | algorithms/composite/MultiColorCompositeT.h:166-167 | 1024 of them are delivered |
| `ColorCoverage.EqualSharesDoNotTile` | algorithms/composite/MultiColorCompositeT.h:166-167 | 150 elements that lie 12 bytes apart are not tiled, although the aligned shares of data and memory are equal |
| `ColorTiling.EvenShares` | algorithms/composite/MultiColorCompositeT.h:164-182 | all segments but the last have equal lengths divisible by 512, and the last is no shorter |
| `ColorTiling.Balanced` | algorithms/composite/MultiColorCompositeT.h:166-181 | the load is shared: each part of data and memory falls short of an equal one by less than 512 bytes, and the last exceeds the others by less than 512 bytes per colour |
| `ColorTiling.SharesWrap` | algorithms/composite/MultiColorCompositeT.h:180-181 | beyond 32 bits the lengths add up to the total as 32-bit words do |
| `ColorTiling.FieldsFit` | algorithms/composite/MultiColorCompositeT.h:193-196 | every field fits its 32-bit word, and offsets wrap as such words do |
| `ColorTiling.SharesConserve` | algorithms/composite/MultiColorCompositeT.h:180-181 | the lengths add up to the total whatever the extent |
| `ColorComposite.MultiColor.Initialize` | algorithms/composite/MultiColorCompositeT.h:137-211 | the loops give every executor its segment of the cut, at the same offset of source and destination, for the chosen and clamped number of colours |
| `ColorComposite.MultiColor.Reset` | algorithms/composite/MultiColorCompositeT.h:214-253 | another byte count or root makes a new cut; otherwise the old one is laid over the new buffers; the count starts again |
| `ColorComposite.ResetLikeFresh` | algorithms/composite/MultiColorCompositeT.h:228-250 | with bytes and root unchanged, reset gives what a fresh initialize gives if and only if the data span the same memory |
| `ColorComposite.MultiColor.CbBarrierDone` | algorithms/composite/MultiColorCompositeT.h:291-315 | the barrier callback is a run of the machine that starts every executor once and in order, whatever reports from inside |
| `ColorComposite.MultiColor.CbCompositeDone` | algorithms/composite/MultiColorCompositeT.h:317-333 | a colour's report is one step of the machine, and its assertion holds |
| `ColorComposite.MultiColor.Restart` | algorithms/composite/MultiColorCompositeT.h:256-272 | with a barrier, it is told to call `cb_barrier_done` and started once, which begins a round of the machine; without one nothing happens |
| `ColorComposite.MultiColor.NextRound` | algorithms/composite/MultiColorCompositeT.h:214-272 | reset and restart after a finished round are one step of the machine, with a new or kept cut laid over the new buffers |
| `ColorComposite.MultiColor.Rounds` | algorithms/composite/MultiColorCompositeT.h:214-333 | any number of rounds, whatever each asks for and in whatever order barrier and colours report, is a run of the machine that calls the user once per round |
| `CompositeCompletion.OneCallPerRound` | algorithms/composite/MultiColorCompositeT.h:226-333 | over any number of rounds and any order of reports the count assertions hold, and the user has been called once for every round that is over and not for the one that is not |
| `CompositeCompletion.CallsLast` | algorithms/composite/MultiColorCompositeT.h:299-331 | the call comes exactly with the last report of the round, never while executors are being started |
| `CompositeCompletion.RoundGoesOn` | algorithms/composite/MultiColorCompositeT.h:256-333 | a round that is not over can go on |
| `CompositeCompletion.RoundShrinks` | algorithms/composite/MultiColorCompositeT.h:256-333 | every step brings it nearer to its end, which comes within twice the colours and two more |
| `ReductionKernels.Reduce` | math/_N_src.x.h:32-74 | unrolled or not, every element becomes the left fold of that element of the original sources and nothing beyond the count changes, also when the destination is one of the sources |
| `ReductionKernels.Unrolled` | math/_N_src.x.h:40-62 | the unrolled loop does so for all but at most three elements |
| `ReductionKernels.Combine` | math/_N_src.x.h:68-71 | the inner loop computes the left fold of the buffer |
| `ReductionTrees.TreeIsFold` | math/_N_src.x.h:32-74 | for an associative operator any tree of calls equals one flat call |
| `ReductionTrees.TreesAgree` | math/_N_src.x.h:32-74 | for one that is also commutative, trees over the same sources agree in any grouping and order |
| `MaxLoc.Locate` | math/int32.cc:116-174 | every element gets the best value with the smallest index among ties, in place or not; nothing beyond the count changes |
| `MaxLoc.FindBest` | math/int16.cc:119-125 | the scan finds a source that holds the fold of the pairwise winner |
| `MaxLoc.WinnerOf` | math/int32.cc:121-122 | of two pairs the greater value wins, or the smaller, and of equal values the smaller location |
| `MaxLoc.FoldIsBest` | math/int32.cc:116-174 | the fold of the winner is the pair that the MPI rule names |
| `MaxLoc.BestIsUnique` | math/int32.cc:116-174 | there is only one such pair |
| `MaxLoc.TreeIsBest` | math/int32.cc:116-174 | any tree of calls delivers the best pair of all its sources |
| `MaxLoc.RegroupingAgrees` | math/int32.cc:116-174 | trees over the same sources agree in any grouping and order, also with sources taken twice |
| `JenkinsHash.RoundIs` | util/ccmi_util.h:88-90 | a round adds the byte as the signed or unsigned number it is, multiplies by 1025 and combines the word with its 64th part |
| `JenkinsHash.FinishIs` | util/ccmi_util.h:95-100 | the finish multiplies by 9, combines with the 2048th part, multiplies by 32769 and keeps 21 bits |
| `JenkinsHash.HashWord.UpdateHash` | util/ccmi_util.h:81-92 | the loop computes the update over the first `len` bytes, round by round |
| `JenkinsHash.HashWord.FinalizeHash` | util/ccmi_util.h:93-101 | the finished hash is the mixed word cut to 21 bits |
| `JenkinsHash.UpdateConcat` | util/ccmi_util.h:81-92 | an update over a concatenation equals two updates |
| `JenkinsHash.UpdateBijective` | util/ccmi_util.h:81-92 | for every key the update has an inverse on the 32-bit states, on both sides |
| `JenkinsHash.MixBijective` | util/ccmi_util.h:96-98 | so has the finish before its mask |
| `JenkinsHash.OneByteNeverCollides` | util/ccmi_util.h:81-98 | keys of one length that differ in exactly one byte never collide before the mask |
| `JenkinsHash.MaskCollides` | util/ccmi_util.h:95-100 | behind the mask every state shares its result, below 2^21, with another one |
| `ConnectionIds.SeqConnMgr.GetConnectionId` | algorithms/connmgr/CommSeqConnMgr.h:69-78 | without a fixed id, after any history: the communicator and its update count modulo 2048 each, whatever the root; or the root modulo 2^23 and its count modulo 512, whatever the communicator |
| `ConnectionIds.SeqConnMgr.GetRecvConnectionId` | algorithms/connmgr/RankSeqConnMgr.h:80-88 | the same for a receiver, with the source in the place of the root |
| `ConnectionIds.SeqConnMgr.BothSides` | algorithms/connmgr/RankSeqConnMgr.h:70-88 | asked about the same root, sender and receiver use the same id |
| `ConnectionIds.SinceCounts` | algorithms/connmgr/CommSeqConnMgr.h:100-112 | the count is that of the updates of its key since its sequence was last set, and of nothing else |
| `ConnectionIds.SeqConnMgr.UpdateConnectionId` | algorithms/connmgr/CommSeqConnMgr.h:100-106 | an update counts for its key alone and returns the new packed pair, fixed id or not |
| `ConnectionIds.SeqConnMgr.Reset` | algorithms/connmgr/CommSeqConnMgr.h:108-112 | setting the sequence makes the count start again |
| `ConnectionIds.PackedIsPair` | algorithms/connmgr/RankSeqConnMgr.h:76 | masks, shift and or build the number that carries both remainders, for any widths |
| `ConnectionIds.SharedIff` | algorithms/connmgr/CommSeqConnMgr.h:69-106 | two users share an id if and only if their low bits agree and so do their counts modulo the window |
| `ConnectionIds.NeverShared` | algorithms/connmgr/CommSeqConnMgr.h:69-106 | users that fit the field never share one, whatever their histories |
| `ConnectionIds.RepeatsIff` | algorithms/connmgr/RankSeqConnMgr.h:100-107 | an id comes back exactly after a multiple of the window of updates, which is 2048 or 512 |
| `ConnectionIds.CommSeqNeverNoId` | common/NativeInterface.h:2096 | a communicator's id is never the one that a multicast asserts against |
| `ConnectionIds.RankSeqNoIdIff` | common/NativeInterface.h:2096 | a rank's is if and only if its low 23 bits are all ones and its sequence number is 511 |

## Left out

- Allgather granularity: buffers are sequences of blocks of `_buflen` bytes; type transforms are contiguous copies, and a send that completes inside `multicast` is a completion right after it (the call is the last thing a phase with one source does).
- Allgather reuse: one run per `setSchedule`; the executor does not clear its receive records between runs.
- Allgather distances: a schedule's phases name other members, so that every distance is below the group's size.
- Allgather sources: the group protocol is proved for one source per phase, which the schedule contract names; `AllgatherEarlyArrival` proves that with more the code is not safe.
- Many-to-many requests: at least one participant and a window of at least one (`PacedSender.NothingToSend` says what happens otherwise); the request's fields are taken to keep their values until the post function returns, although the last inline completion may already have returned it to the allocator; topology indices and endpoints are inverse to each other; `AllToAll` names operations, and `ConnectionReuse` gives them connection ids that may repeat; block lengths equal slot lengths, as line 2816 of common/NativeInterface.h asserts.
- Many-to-many buffer kinds: the three pipe work queue layouts differ only in where a participant's block lies.
- Barrier counters: unbounded, so that neither wraps round to zero, and used once, as lines 192-194 of util/common.h assume; hardware memory barriers are not modelled.
- Barrier stores: clearing is one store per counter or byte, each a step; nobody else reads what is being cleared.
- Composite rounds: the user restarts after the callback of the round before; colours, schedules and topologies are chosen by a function that is a parameter.
- ColorCoverage.DeliversIff: for totals and spans below 2^32, since beyond that 32-bit offsets wrap; an element's data lie in one piece at the front of its extent, and elements do not overlap.
- ReductionKernels.Reduce: sources that overlap the destination partly, at another offset, are not covered; the operator is any function, so that integer overflow is part of it.
- Floating-point kernels: rounding and not-a-number values would be the whole model.
- Other integer kernels: instances of the same macro.
- Multicast reassembly, object construction, dispatch ids and the other connection managers: wiring, constant or table lookups.
- Heap, tracing and alignment of allocations: no part in the results.
