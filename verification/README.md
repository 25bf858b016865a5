# Block layer and crypto: a Dafny model

This project models the hardest parts of a 2.6.35 kernel's block layer and crypto API and proves
what they promise, for every input, every run and every reachable state. `dafny verify
dfyconfig.toml` checks all of it.

* **Ordered barriers** (`Barrier*.dfy`). The request queue is a state machine: clients add and
  merge, the I/O scheduler dispatches, the driver fetches, completes and requeues, all in any
  order. `Barrier` holds the steps; `BarrierPlacement` shows that no request is lost, doubled or
  ended twice; `BarrierSequence` and `BarrierSteps` the stages of a sequence, in every mode;
  `BarrierOrder` and `BarrierHistory` the order around a barrier in the drain modes; `BarrierRuns`
  has the theorems about runs, `BarrierProgress` what a fetch hands out and that no sequence gets
  stuck; `BarrierCode` is the queue as the code updates it. `DispatchOrder` is about the sorted
  dispatch queue.
* **CFQ** (`Cfq*.dfy`, `RequestTree.dfy`). `CfqRequests` is one queue's requests, `CfqGroups` the
  tree of groups and their fairness, `CfqQueues` the scheduler's state with all its redundant
  counters, `CfqBooks` and `CfqSteps` that every operation keeps them right, `CfqService` and
  `CfqForced` the selection of a queue, `CfqOrder` what next_rq, trees and group times mean,
  `CfqRuns` the theorems about runs, `CfqCooperators` the links of merged queues, and `CfqCode` is `cfq_data` as the code updates it.
* **Deadline** and **V(R)** (`Deadline*.dfy`, `Vr*.dfy`): their lists agree, how long a request can
  wait (`DeadlineRuns`, `VrRuns`), and which one goes next (`DeadlineOrder`, `VrOrder`).
* **Merging and completion** (`Segments.dfy`, `SegmentMerges.dfy`, `MergeIndex.dfy`,
  `MergeCode.dfy`, `Completion.dfy`): incremental counts and the merge hash against a recount and
  a scan, and partial completion.
* **Tags** (`Tags.dfy`, `TagsCode.dfy`): the bitmap and index of the tag allocator.
* **Camellia** (`Camellia*.dfy`): `CamelliaNetwork` compares two networks over abstract operations,
  `CamelliaCode` has the in-place code, `Camellia` the 32-bit words, and `CamelliaRfc` the cipher of
  sections 2.3 and 2.4 of RFC 3713 on 64-bit values.
* **CBC** (`Cbc.dfy`): the four block loops and the two that drive them, against section 6.2 of
  NIST SP 800-38A.
* **Spawns** (`Spawn*.dfy`): `crypto_remove_spawns`, when an algorithm goes or is superseded.
  `Spawns` is the book of where each spawn is, `SpawnKeeping` what the walk keeps alive, and
  `SpawnCode` the code on its lists.

`Common.dfy` holds what several of these share.

Each section between two locks is one step. Times, keys and the outcomes of tests of the clock are
arguments, so a theorem holds whatever they are. Numbers are unbounded except in Camellia and CBC,
which work on machine words.

Five properties one might expect are false of the code, and the exact conditions are proved instead:

* A request whose last bio carries no data can absorb a request it does not touch and then counts a
  segment too few (`SegmentMerges.DatalessTailUndercounts`): `blk_phys_contig_segment` skips the
  address test. In the block layer only empty barriers carry no data (block/blk-barrier.c:322), and
  block/blk-core.c:1203 keeps barriers from merging; the merge functions do not rely on it. For a request with a tight count and room left, all merges are sound if and only if
  its last bio has data (`SegmentMerges.SoundIffTailHasData`).
* Resizing a tag map copies out of bounds when the new depth, clamped to twice the queue's
  requests, falls below the old one (`Tags.ResizeCanOverflow`). It stays within bounds, and keeps
  every tag in flight, if and only if the request is for no more than the old depth or the clamped
  depth is not below it (`Tags.ResizeKeeps`).
* When an algorithm is superseded, an instance that the new one is built on can be lost: if it has
  two spawns in the walk, one is kept and through the other it ends dead
  (`SpawnCode.TwoSpawnsLoseInstance`). Exactly what leads to the new algorithm is kept if no such
  instance has two spawns in the walk, and where nothing is built on itself, only then
  (`SpawnKeeping.KeptIffOneSpawnEach`).
* Within a batch the deadline scheduler does not always dispatch the request next above the last one:
  one that was added since is passed by (`DeadlineOrder.AddedSinceIsPassed`). It does if and only if
  none that came since lies between (`DeadlineOrder.NextAboveIff`). And reads can be starved if
  writes_starved is zero (`DeadlineOrder.ReadsCanStarve`), but not otherwise
  (`DeadlineRuns.NotStarved`).
* V(R) does not multiply the distance of turning round by rev_penalty, as its header says
  (block/vr-iosched.c:9-13): it takes the remainder of the other distance. A rev_penalty of 1, said to
  serve the nearest request first, makes the head go on (`VrOrder.OneGoesOn`); 0, said to make it go
  on, serves the nearest first (`VrOrder.ZeroIsNearest`); and 10 can turn it too early
  (`VrOrder.TurnsTooEarly`). The code follows its header, whatever the other neighbour, if and only if
  remainder and quotient agree (`VrOrder.ForwardIff`, `VrOrder.BackwardIff`).

## Model

| member | source | states |
|---|---|---|
| `BarrierRuns.BarrierSafety` | block/blk-barrier.c:154-280 | In every run in a drain mode: when the driver is handed a flush or barrier proxy, every fs request added before the barrier has ended; when it is handed an fs request, every barrier added before it has ended; and all its bios were added between the same barriers |
| `BarrierRuns.MergesStayInEpoch` | block/elevator.c:472-542 | In every such run no bio merges into a request that a barrier separates it from, and no two requests merge across a barrier |
| `BarrierRuns.BarriersEndOnce` | block/blk-barrier.c:92-130 | In every run in any mode each request is in exactly one place or has ended; barriers end in the order they were added, each once, and what has ended stays ended |
| `BarrierRuns.StagesCompleteOnce` | block/blk-barrier.c:92-130 | In every run in any mode a proxy that the driver ends belongs to a sequence in progress whose stage bit is still clear, so the BUG_ON never fires |
| `BarrierRuns.BarrierEndsWithItsStages` | block/blk-barrier.c:92-130 | In every run in any mode a step that ends a stage ends the barrier if and only if no other stage is open, with the first error of the sequence; a fetch leaves a sequence in progress alone, ends only barriers that are refused or have no stage to wait for, and begins a sequence with exactly the skipped stages over; no other step touches the sequence |
| `BarrierRuns.StartOutcome` | block/blk-barrier.c:154-230 | start_ordered ends the barrier at once, with no error, if and only if the barrier is empty, the mode has no flush before it and nothing is in flight; otherwise it begins the sequence |
| `BarrierRuns.OpenStagesAreHeld` | block/blk-barrier.c:154-230 | While a sequence is in progress some stage is open, and a flush or barrier stage is open exactly while its proxy is queued or with the driver |
| `BarrierRuns.WarningUnreachable` | block/blk-barrier.c:236-280 | In every run in a drain mode, whatever is requeued, no call of blk_do_ordered made by a fetch meets a request of an earlier stage |
| `BarrierProgress.HandedOutIffDue` | block/blk-barrier.c:236-280 | In every run in a drain mode, during a sequence, a fetch hands out the front request if and only if barriers do not order it, it is the proxy of the lowest stage that is not over, or the drain goes on and it was added before the barrier; and nothing else |
| `BarrierProgress.SequenceGoesOn` | block/blk-barrier.c:236-280 | In every run in a drain mode a sequence never gets stuck: whenever the driver holds nothing, the next fetch hands out something that is due |
| `BarrierProgress.NeverHangs` | block/blk.h:54-68 | In every run in a drain mode, when the driver holds nothing, a fetch finds a request unless the dispatch queue is empty at its end |
| `BarrierProgress.FetchWithoutSequence` | block/blk-barrier.c:154-262 | In every mode, when no sequence is in progress, a fetch hands out the first request that is no barrier, and none only if there is none; or it begins a sequence and hands out its first proxy at once exactly if there is no drain to wait for |
| `BarrierProgress.BeginsWithItsStages` | block/blk-barrier.c:154-230 | In every run in any mode a fetch that begins a sequence opens exactly the stages of the mode, without the barrier write and the flush behind it if the barrier is empty; the drain is one exactly if something is in flight and no tag orders the barrier |
| `BarrierProgress.TagFetch` | block/blk-barrier.c:264-268 | Ordered by tag, a fetch during a sequence holds back barriers only |
| `BarrierRuns.FetchIsSafe` | block/blk.h:54-68 | In a state that satisfies the invariants, what a fetch hands out is safe to issue |
| `BarrierRuns.RunSeq` | block/blk-barrier.c:56-280 | Every state of every run satisfies the sequence invariant, and the merge indexes name only requests the scheduler holds |
| `BarrierRuns.RunOrd` | block/elevator.c:612-744 | Every state of a run in a drain mode satisfies the order invariant: the dispatch queue is sorted by epoch, with each barrier and its proxies at the end of its epoch |
| `BarrierSequence.CompleteSeqKeeps` | block/blk-barrier.c:92-112 | Setting the bits of finished stages keeps the invariant and ends the barrier exactly when that completes the sequence, with the first error reported |
| `BarrierSequence.StartOrderedKeeps` | block/blk-barrier.c:154-230 | Opening a sequence puts out exactly the proxies of the stages that are not skipped |
| `BarrierSteps.DoOrderedKeeps` | block/blk-barrier.c:236-280 | What blk_do_ordered lets pass is at the front, is no barrier, and is no proxy before the drain is over |
| `BarrierSteps.RequeueKeeps` | block/elevator.c:553-568 | A requeued request is in one place again; stages, barrier and results are unchanged |
| `BarrierSteps.CompleteKeeps` | block/elevator.c:837-867 | The end of any request the driver holds keeps the sequence invariant, including the end of the drain |
| `BarrierOrder.FrontSeq` | block/blk-barrier.c:63-90 | At the front of the dispatch queue the color test is exact: same color if and only if same epoch as the barrier in progress |
| `BarrierOrder.DrainIsOver` | block/elevator.c:850-867 | When elv_completed_request ends the drain, no fs request of the barrier's epoch is queued or with the driver |
| `BarrierOrder.RequeueOrd` | block/elevator.c:664-692 | The forward scan by stage puts a requeued request, proxy or not, where its epoch and stage belong |
| `BarrierOrder.CompleteOrd` | block/elevator.c:837-867 | Every completion keeps the order invariant and the count of fs requests in flight |
| `BarrierHistory.ScanStaysInEpoch` | block/elevator.c:413-449 | The backward scan of elv_dispatch_sort never passes a request of an earlier epoch |
| `BarrierHistory.OrdStep` | block/elevator.c:612-744 | Every enabled step of clients, scheduler and driver keeps the order invariant |
| `BarrierHistory.EpochsGrow` | block/elevator.c:709-744 | Requests added later have no smaller epoch, and a greater one if a barrier lies between |
| `DispatchOrder.SortKeepsSweep` | block/elevator.c:413-449 | Behind the last request that it may not pass, the dispatch queue stays in the order of a sweep from end_sector upwards and round: a request dispatched goes exactly where the sweep comes to it |
| `BarrierCode.RequestQueue.CompleteSequence` | block/blk-barrier.c:92-112 | The in-place code computes the specified state; its BUG_ON is its precondition |
| `BarrierCode.RequestQueue.BeginSequence` | block/blk-barrier.c:154-230 | The in-place code, stacking proxies from the last stage to the first, computes the specified state and result |
| `BarrierCode.RequestQueue.CheckOrder` | block/blk-barrier.c:236-280 | The in-place code computes the state, request and verdict that the theorems on fetching are about |
| `BarrierCode.RequestQueue.FindNext` | block/blk.h:59-63 | The loop over the dispatch queue terminates and computes the specified state and request |
| `BarrierCode.RequestQueue.FetchRequest` | block/blk-core.c:1872-1946 | Fetching in a reachable state keeps the sequence invariant |
| `BarrierCode.RequestQueue.EndByDriver` | block/elevator.c:837-867 | The end of a request in a reachable state completes no stage twice and keeps the sequence invariant |
| `BarrierCode.RequestQueue.RequeueRequest` | block/elevator.c:553-568 | The in-place code with its forward scan computes the specified state |
| `BarrierCode.RequestQueue.RequeuePosition` | block/elevator.c:664-692 | The scan stops at the first request of the same or a later stage |
| `BarrierCode.RequestQueue.SortIntoQueue` | block/elevator.c:413-449 | The in-place code with its backward scan computes the specified state |
| `RequestTree.AliasFound` | block/elevator.c:356-378 | The lookup by sector fails if and only if no request starts there |
| `RequestTree.InsertKeeps` | block/elevator.c:356-378 | An insertion without an alias keeps the requests strictly ascending |
| `RequestTree.EraseKeeps` | block/elevator.c:380-386 | An erasure keeps the requests strictly ascending |
| `CfqRequests.ChooseReq` | block/cfq-iosched.c:632-713 | Of two requests none is preferable to the one chosen: sync, then metadata, then no wrap, then distance with the back-seek penalty |
| `CfqRequests.FindNextOk` | block/cfq-iosched.c:765-787 | The search around a request finds another one if and only if there is one |
| `CfqRequests.AddSortedKeeps` | block/cfq-iosched.c:1387-1418 | A request joins the tree, one at the same sector leaves it, FIFO, tree, next_rq and counts agree, and next_rq is not null |
| `CfqRequests.RepositionKeeps` | block/cfq-iosched.c:1420-1427 | After a front merge the same holds, with the request at its new sector |
| `CfqRequests.DispatchKeeps` | block/cfq-iosched.c:1921-1936 | Exactly the dispatched request leaves; FIFO and tree hold the same requests, and next_rq is null if and only if there are none |
| `CfqRequests.MergeKeeps` | block/cfq-iosched.c:1525-1543 | Exactly the absorbed request leaves; if it expires earlier the other takes over its expiry and its place on the FIFO, and the order of all others stays |
| `CfqGroups.ScaleSlice` | block/cfq-iosched.c:504-511 | The scaled slice is the rounded-down quotient by the group's weight |
| `CfqGroups.NextGroupKeeps` | block/cfq-iosched.c:2131-2142 | The group found has the least vdisktime, becomes the active one, and min_vdisktime grows exactly to it; none is found only when the tree is empty |
| `CfqGroups.ServeKeeps` | block/cfq-iosched.c:912-929 | Charging a group keeps the tree sorted, and min_vdisktime below every queued group |
| `CfqGroups.GroupsStayClose` | block/cfq-iosched.c:912-929 | Over any number of slices, vdisktimes of backlogged groups get no further apart than they started or than one maximal scaled slice |
| `CfqGroups.FairShares` | block/cfq-iosched.c:805-859 | However long two groups stay backlogged, the weighted service they have received differs by no more than a fixed amount |
| `CfqBooks.ServiceTreeAddKeeps` | block/cfq-iosched.c:1137-1246 | Through every branch, group moves included, each linked queue is on exactly its tree, trees are sorted with right counts and leftmost caches, and nr_cfqq and the group tree agree |
| `CfqBooks.GroupsLeft` | block/cfq-iosched.c:861-883 | A linked queue's group has a positive nr_cfqq, so the BUG_ON never fires, and the group leaves its tree with its last queue |
| `CfqBooks.AddRrKeeps` | block/cfq-iosched.c:1327-1335 | A queue joins the round robin, and all trees, groups and counts agree |
| `CfqBooks.DelRrKeeps` | block/cfq-iosched.c:1341-1359 | A queue leaves the round robin, and all trees, groups and counts agree |
| `CfqSteps.InsertRqKeeps` | block/cfq-iosched.c:3277-3292 | Adding a request keeps all books, whether or not it dispatches an alias or starts its queue |
| `CfqSteps.SliceExpiredKeeps` | block/cfq-iosched.c:1605-1651 | Expiring the active queue keeps all books; only queues with requests stay in the round robin |
| `CfqSteps.ExpiredQueue` | block/cfq-iosched.c:1605-1651 | Afterwards the queue is in the round robin if and only if it has requests, and busy_queues dropped exactly otherwise |
| `CfqOrder.FindNextBest` | block/cfq-iosched.c:765-787 | The search finds the next request above, or the first of all if there is none, or the next below; neither of them is preferable to it |
| `CfqOrder.EnqueueNext` | block/cfq-iosched.c:1387-1418 | After an insertion next_rq is the new request or the one before it, neither being preferable to it |
| `CfqOrder.DispatchNext` | block/cfq-iosched.c:1921-1936 | After a dispatch next_rq is the best neighbour of the request that went |
| `CfqOrder.MergeNext` | block/cfq-iosched.c:1525-1543 | After a merge next_rq stays, or passes from the absorbed request to the one that absorbed it |
| `CfqOrder.FifoOrder` | block/cfq-iosched.c:3277-3292 | New requests go to the end of the FIFO, dispatched ones leave it, and a front merge keeps the place |
| `CfqOrder.InsertConserves` | block/cfq-iosched.c:3277-3292 | An insertion loses no request: the new one is pending, one at its sector of the same queue is dispatched, and no other is touched |
| `CfqOrder.RepositionConserves` | block/cfq-iosched.c:1420-1427 | Nor does a front merge: the request is at its new sector, another one there is dispatched, and no other is touched |
| `CfqOrder.LinkedRight` | block/cfq-iosched.c:1137-1246 | A queue is linked by its key on the tree of its class and type, in its own group, or in the root group while it is seeky and groups are not isolated |
| `CfqOrder.PreemptLinks` | block/cfq-iosched.c:3205-3220 | A preempting queue is linked by the key it is given, and no queue is active |
| `CfqOrder.NewGroupIsLast` | block/cfq-iosched.c:833-859 | A new group goes behind the last one, CFQ_IDLE_DELAY later, or starts at min_vdisktime if it is alone |
| `CfqOrder.ExpiryCharges` | block/cfq-iosched.c:912-929 | When a slice ends, the group of its queue is charged for it, scaled by its weight |
| `CfqService.SevenTrees` | block/cfq-iosched.c:833-883 | nr_cfqq is the sum of a group's seven tree counts |
| `CfqService.SyncNotNegative` | block/cfq-iosched.c:912-929 | nr_sync is never negative |
| `CfqService.GroupTreeNotEmpty` | block/cfq-iosched.c:2144-2163 | While a queue is busy or a request queued, the group tree is not empty |
| `CfqService.ChooseWorkload` | block/cfq-iosched.c:2026-2047 | The loop finds the workload whose first queue has the lowest key, the first one on ties; sync-noidle if all trees are empty |
| `CfqService.ChooseKindFinds` | block/cfq-iosched.c:2049-2129 | The service tree chosen for a group on the tree is not empty |
| `CfqService.ChooseKindRight` | block/cfq-iosched.c:2049-2129 | The tree chosen is of the highest class in which the group has a queue, RT before BE before idle; within it the running type goes on if and only if it has a queue and is not over, and otherwise the type whose first queue has the lowest key is next |
| `CfqService.SelectQueueKeeps` | block/cfq-iosched.c:2165-2247 | Selection never finds the group tree empty, the queue it selects has requests, and when it must choose it finds one |
| `CfqService.SelectQueueInTurn` | block/cfq-iosched.c:2165-2247 | A new choice falls on a queue of the group with the least vdisktime, on the right tree and with the lowest key there, and the lowest of its class unless the running type goes on; otherwise the active queue is kept or waited for, or its cooperator is next |
| `CfqForced.NextForcedFinds` | block/cfq-iosched.c:1682-1700 | A queue is found if and only if requests are queued, and it holds some |
| `CfqRuns.CountersAgree` | block/cfq-iosched.c:1137-1359 | In every state of every run: busy_queues and rq_queued count, nr_cfqq counts a group's queues and sums its trees, a group is on the tree if and only if it has queues, nr_sync is not negative, and every queue in the round robin but the active one has requests |
| `CfqRuns.MinVdisktime` | block/cfq-iosched.c:531-547 | Over any part of any run min_vdisktime does not decrease, and in every state it is at most the vdisktime of each queued group |
| `CfqRuns.SelectionFinds` | block/cfq-iosched.c:2144-2247 | In every run, whenever cfq_choose_cfqg is called it finds a group and a queue with requests |
| `CfqRuns.SelectionInTurn` | block/cfq-iosched.c:2144-2247 | In every run a new choice falls on the queue whose turn it is |
| `CfqRuns.DispatchOneKeeps` | block/cfq-iosched.c:2377-2430 | A dispatch keeps the books; the queue it selects is not empty, as the BUG_ON demands, and it dispatches the first request of its FIFO if that has expired, and next_rq otherwise |
| `CfqRuns.PreemptKeeps` | block/cfq-iosched.c:3205-3220 | Preemption keeps the books |
| `CfqCode.CfqData.AddToServiceTree` | block/cfq-iosched.c:1137-1246 | The in-place code, with its walk down the tree, computes the specified state |
| `CfqCode.CfqData.AddToGroup` | block/cfq-iosched.c:833-859 | The in-place code puts a new group behind the last one and counts its queue |
| `CfqCode.CfqData.DelFromGroup` | block/cfq-iosched.c:861-883 | The in-place code takes a group off the tree with its last queue |
| `CfqCode.CfqData.DelQueueRr` | block/cfq-iosched.c:1341-1359 | The in-place code computes the specified state |
| `CfqCode.CfqData.GroupServed` | block/cfq-iosched.c:912-929 | The in-place code moves the group to the place of its new vdisktime |
| `CfqCode.CfqData.InsertRequest` | block/cfq-iosched.c:3277-3292 | The in-place code computes the specified state and keeps the books |
| `CfqCode.CfqData.ExpireQueue` | block/cfq-iosched.c:1605-1651 | The in-place code computes the specified state, keeps the books and leaves no active queue |
| `CfqCode.CfqData.ChooseTree` | block/cfq-iosched.c:2049-2129 | The in-place code, with the loop over the workloads, chooses a tree of the highest class the group has, and within it the running type or the one with the lowest first key |
| `CfqCode.CfqData.Select` | block/cfq-iosched.c:2165-2247 | The in-place code computes the specified state, keeps the books, selects only a queue with requests, and by a new choice the one whose turn it is |
| `CfqCode.CfqData.DispatchRequests` | block/cfq-iosched.c:2412-2430 | The in-place code computes the specified state and keeps the books |
| `CfqCode.CfqData.DrainQueue` | block/cfq-iosched.c:2249-2259 | The loop empties the queue's tree and its FIFO, as the BUG_ON demands, and keeps the books |
| `CfqCode.CfqData.ForcedDispatch` | block/cfq-iosched.c:2269-2285 | It terminates, moves every queued request to the dispatch list exactly once, returns their number, and ends with busy_queues zero |
| `CfqCooperators.WalkIsShort` | block/cfq-iosched.c:1984-2024 | No walk along the links is longer than their number |
| `CfqCooperators.SetupMerge` | block/cfq-iosched.c:1984-2024 | The walk terminates; nothing is linked exactly if a reference count is zero or the chain leads back; else two distinct chain ends are, towards the one with more references, and the links stay acyclic |
| `CfqCooperators.PutCooperator` | block/cfq-iosched.c:2572-2591 | The walk drops exactly the queues of the chain, in order, and the loop warning is unreachable |
| `CfqCooperators.LinksStayAcyclic` | block/cfq-iosched.c:2216-2221 | The links are acyclic in every state of every run |
| `Segments.GreedyValid` | block/blk-merge.c:117-171 | The greedy split itself respects every limit, so the least number of segments is attained |
| `Segments.GreedyAhead` | block/blk-merge.c:117-171 | Greedy splitting is ahead of every valid split: fewer segments, or as many with no more in the last |
| `Segments.RecalcAhead` | block/blk-merge.c:12-70 | A recount finds as few segments as any valid split that keeps high pages apart |
| `Segments.CoversJoin` | block/blk-merge.c:273-308 | Two chains whose meeting segments become one have a valid split with one segment less, and the sizes written bound its end segments |
| `SegmentMerges.CountIsSound` | block/blk-merge.c:117-171 | A request that satisfies the invariant maps to at most nr_phys_segments data entries |
| `SegmentMerges.BackMergeKeeps` | block/blk-merge.c:224-246 | A back merge, allowed or refused, keeps the count sound and the end sizes over-approximate |
| `SegmentMerges.FrontMergeKeeps` | block/blk-merge.c:248-271 | A front merge does the same |
| `SegmentMerges.MergeReqsKeeps` | block/blk-merge.c:273-308 | A merge of two requests does the same for both, even when it is refused after writing sizes |
| `SegmentMerges.BackMergeIff` | block/blk-merge.c:203-246 | A back merge is allowed if and only if the segments stay within max_segments; then the bio is last on the chain, and otherwise no bio is added |
| `SegmentMerges.FrontMergeIff` | block/blk-merge.c:248-271 | The same for a front merge, with the bio first |
| `SegmentMerges.MergeReqsIff` | block/blk-merge.c:273-308 | Two requests merge if and only if their segments, one less if their ends meet, stay within max_segments; then the one chain follows the other |
| `SegmentMerges.CountsStaySound` | block/blk-merge.c:203-308 | Over any sequence of merges and partial completions of bios with data, each request maps to at most nr_phys_segments entries |
| `SegmentMerges.LimitIsKept` | block/blk-merge.c:203-308 | Over any such sequence, if what starts or is shortened is within max_segments, every request is, and its scatter list never has more data entries |
| `SegmentMerges.DatalessTailUndercounts` | block/blk-merge.c:88-111 | A request from a bio with data and a back merge of one without, and another request, both sound, whose merge counts too few segments |
| `SegmentMerges.SoundIffTailHasData` | block/blk-merge.c:88-111 | For a request with a tight count and room left, all merges into it are sound if and only if its last bio has data |
| `SegmentMerges.RecalcSegments` | block/blk-merge.c:12-70 | The loop counts as few segments as any valid split that keeps high pages apart, and the sizes it keeps bound the first and the last |
| `SegmentMerges.MapSg` | block/blk-merge.c:117-171 | The entries name the memory of the data byte for byte and in order, are as few as any valid split has, and exceed the size limit or cross a segment boundary only if a vector does |
| `MergeIndex.TryMerge` | block/elevator.c:111-126 | A bio goes to the back if it starts where the request ends, to the front if it ends where the request starts, and nowhere otherwise |
| `MergeIndex.MergeReqsKeeps` | block/blk-merge.c:359-430 | Two adjacent requests become one, the index and all chains stay right, and exactly the same bios are held |
| `MergeIndex.BackMergeKeeps` | block/blk-core.c:1206-1229 | A back merge moves the request to the bucket of its new end and adds exactly the bio |
| `MergeIndex.FrontMergeKeeps` | block/blk-core.c:1231-1263 | A front merge leaves the bucket right and adds exactly the bio |
| `MergeIndex.StepKeeps` | block/elevator.c:472-542 | Every action keeps index and chains right and neither loses nor duplicates a bio |
| `MergeIndex.IndexAgrees` | block/elevator.c:305-350 | In every state of every run each bucket holds exactly the hashed requests whose end belongs there; each chain is one ascending run of sectors that __sector and __data_len describe; and no bio is on two chains |
| `MergeCode.Elevator.Find` | block/elevator.c:330-350 | A request is found if and only if some mergeable request on the hash ends at the offset; only unmergeable requests leave the hash |
| `MergeCode.Elevator.AttemptMerge` | block/blk-merge.c:359-430 | The in-place code merges two requests if and only if both are mergeable and the one ends where the other starts, joins their chains in that order, and keeps index and chains right |
| `MergeCode.Elevator.MergeBack` | block/blk-core.c:1206-1229 | The in-place code puts the bio at the end of the chain, followed by the chain of the next request exactly if they now meet, and keeps index and chains right |
| `MergeCode.Elevator.MergeFront` | block/blk-core.c:1231-1263 | The in-place code puts the bio at the front of the chain, behind the chain of the previous request exactly if they now meet, and keeps index and chains right |
| `Completion.Advanced` | block/blk-core.c:1970-2100 | What n bytes leave is a chain of bios with data, n bytes shorter, and empty if and only if n is at least all bytes |
| `Completion.CompletionComposes` | block/blk-core.c:1970-2100 | Completing n and then m bytes leaves the same chain, and ends the same bios in the same order, as completing n + m |
| `Completion.LeavesTheRest` | block/blk-core.c:1970-2100 | Completing n bytes leaves exactly the bytes behind them: the same memory, for the same places on the disk |
| `Completion.StaysOnDisk` | block/blk-core.c:130-165 | What n bytes leave of a chain in one piece is in one piece, n bytes further on the disk |
| `Completion.Request.EndBytes` | block/blk-core.c:1999-2049 | The loop ends exactly the whole bios among the bytes and stops within a vector; running out of vectors is impossible |
| `Completion.Request.Update` | block/blk-core.c:1970-2100 | It returns false if and only if all bytes are consumed; otherwise exactly the bytes behind them are left, __data_len is their number, __sector is where they are on the disk, and "request botched" is unreachable |
| `Deadline.AddKeeps` | block/deadline-iosched.c:76-113 | After an addition the FIFO and the tree of each direction hold the same requests, the FIFO by expiry, and at most one next_rq is set |
| `Deadline.AddAppends` | block/deadline-iosched.c:76-113 | The new request expires as its direction is set and is last on its FIFO; one at the same sector is dispatched; the other direction stays |
| `Deadline.FrontMergedKeeps` | block/deadline-iosched.c:156-168 | A front merge keeps that |
| `Deadline.MergedKeeps` | block/deadline-iosched.c:170-189 | A merge of two requests keeps that |
| `Deadline.MergedHandsOn` | block/deadline-iosched.c:170-189 | Exactly the absorbed request leaves the FIFO; if it expires earlier the other takes over its expiry and its place |
| `Deadline.DispatchKeeps` | block/deadline-iosched.c:245-327 | A dispatch keeps that, and finds no request if and only if none is pending |
| `DeadlineRuns.RunKeeps` | block/deadline-iosched.c:76-327 | All of that, and a bounded starved, in every state of every run |
| `DeadlineRuns.NotStarved` | block/deadline-iosched.c:245-327 | In every run, while a write is pending, at most (writes_starved + 1) * max(1, fifo_batch) calls choose none; while a read is, at most 2 * max(1, fifo_batch), if writes_starved is not zero |
| `DeadlineRuns.PlaceNeverGrows` | block/deadline-iosched.c:170-189 | Additions and merges never move a pending request back on its FIFO |
| `DeadlineRuns.OverdueAreServed` | block/deadline-iosched.c:228-327 | In every run an expired request with p ahead stays pending for at most p + 1 times the calls in which its direction cannot be passed over |
| `DeadlineOrder.ReadsFirst` | block/deadline-iosched.c:255-300 | In every run a call that starts a batch serves a write if and only if one is pending and either no read is or exactly writes_starved batches of reads were started, with a write pending, since the last batch of writes |
| `DeadlineOrder.BatchGoesUp` | block/deadline-iosched.c:206-222 | In every run a call within a batch dispatches, in the direction of the last dispatch, a request above it, below every one that was pending then and is above it |
| `DeadlineOrder.BatchStarts` | block/deadline-iosched.c:302-320 | In every run a batch starts with the oldest request of its direction if any there has expired or the sweep is at its end, and otherwise goes on with the sweep |
| `DeadlineOrder.NextAboveIff` | block/deadline-iosched.c:206-222 | Within a batch the pending request next above the last goes out if and only if none that was added, or given a lower sector, since the last dispatch lies between |
| `DeadlineOrder.AddedSinceIsPassed` | block/deadline-iosched.c:206-222 | With 10 dispatched and 30 next, a request added at 20 is passed by |
| `DeadlineOrder.ReadsCanStarve` | block/deadline-iosched.c:276-277 | With writes_starved zero there are runs of any number of calls that all choose writes while a read is pending |
| `DeadlineCode.DeadlineData.Add` | block/deadline-iosched.c:100-113 | The in-place code with its alias loop computes the specified state and keeps the invariant |
| `DeadlineCode.DeadlineData.Move` | block/deadline-iosched.c:206-222 | The in-place code computes the specified state |
| `DeadlineCode.DeadlineData.Dispatch` | block/deadline-iosched.c:245-327 | The in-place code computes the state that the theorems on batches and directions are about, and returns zero if and only if nothing is pending |
| `Vr.CacheMeans` | block/vr-iosched.c:72-113 | The cache is right exactly as meant: next_rq is the smallest request at or above last_sector and prev_rq the largest below it, each null only when there is none |
| `Vr.AddSortedKeeps` | block/vr-iosched.c:72-94 | After an alias is moved the insertion finds none, and the cache is right again |
| `Vr.MoveKeeps` | block/vr-iosched.c:193-212 | Moving a request keeps cache, FIFOs and nr_sorted right |
| `Vr.DelNoBug` | block/vr-iosched.c:96-113 | No BUG_ON fires after a deletion, neither with the cache right nor in the middle of a move, when it already points at the neighbours of the request moved |
| `Vr.FrontMergedKeeps` | block/vr-iosched.c:158-170 | A front merge keeps cache, FIFOs and nr_sorted right |
| `Vr.MergedKeeps` | block/vr-iosched.c:172-191 | A merge of two requests keeps cache, FIFOs and nr_sorted right, even across the two FIFOs |
| `VrRuns.MergedHandsOn` | block/vr-iosched.c:172-191 | Exactly the absorbed request leaves the FIFOs; if both wait there and it expires earlier the other takes over its expiry and its place, even on the other FIFO |
| `Vr.DispatchKeeps` | block/vr-iosched.c:285-306 | A dispatch returns 0 if and only if nothing is pending, and takes exactly one request |
| `Vr.CacheAgrees` | block/vr-iosched.c:72-113 | In every state of every run next_rq and prev_rq are the nearest pending requests at or above and below last_sector, null only if there are none, and the BUG_ONs on them do not fire |
| `VrCode.VrData.AddToTree` | block/vr-iosched.c:72-94 | The in-place code computes the specified state with the cache right; the second insertion finds no alias, so its BUG_ON does not fire |
| `VrCode.VrData.MoveToDispatch` | block/vr-iosched.c:193-212 | The in-place code computes the specified state with the cache right, and no BUG_ON fires while the cache points beside the head |
| `VrCode.VrData.Delete` | block/vr-iosched.c:96-113 | The in-place code computes the specified state, and its BUG_ONs do not fire |
| `VrCode.VrData.LinkInTree` | block/vr-iosched.c:72-94 | The in-place update of the cache for a new request computes the specified state, with the cache right |
| `VrCode.VrData.Add` | block/vr-iosched.c:118-130 | The in-place code computes the specified state and keeps cache, FIFOs and nr_sorted right |
| `VrCode.VrData.FrontMerge` | block/vr-iosched.c:158-170 | The in-place code does the same when a request gets a new first sector |
| `VrCode.VrData.MergeRequests` | block/vr-iosched.c:172-191 | The in-place code does the same when one request absorbs another |
| `VrCode.VrData.Dispatch` | block/vr-iosched.c:285-306 | The in-place code computes the specified state, dispatches if and only if something is pending, and takes a neighbour of the head unless the FIFOs are due and something there has expired; the BUG_ON of vr_choose_request does not fire |
| `VrCode.VrData.Drain` | block/elevator.c:570-582 | The loop terminates with nr_sorted zero, and everything that was held is dispatched exactly once |
| `VrRuns.FifosInOrder` | block/vr-iosched.c:118-191 | In every run whose clock does not go back, both FIFOs are in the order of their expiry times |
| `VrRuns.OverdueAreServed` | block/vr-iosched.c:214-306 | In every such run an expired request, p requests on both FIFOs expiring no later, stays on its FIFO for at most p * (fifo_batch + 1) calls |
| `VrRuns.PendingOnOneFifo` | block/vr-iosched.c:118-191 | With both expiry times set, every pending request is on exactly one FIFO, once, in every state of every run |
| `VrRuns.PendingAreServed` | block/vr-iosched.c:214-306 | With both expiry times set the bound holds for every pending request |
| `VrOrder.DispatchInTurn` | block/vr-iosched.c:232-306 | In every run whose clock does not go back, a call dispatches the oldest request if more than fifo_batch were dispatched since the last look at the FIFOs and something there has expired; and otherwise the nearest request at or above the head or the nearest below it, as the penalties decide if there are both |
| `VrOrder.HeadFollows` | block/vr-iosched.c:193-212 | In every state of every run last_sector is where the last dispatch was, and head_dir is forward if and only if the head moved up to it |
| `VrOrder.OneGoesOn` | block/vr-iosched.c:254-282 | With rev_penalty 1 the head goes on in its direction, except to a request at the very head |
| `VrOrder.ZeroIsNearest` | block/vr-iosched.c:254-282 | With rev_penalty 0 the nearest request is next, up to a distance of INT_MAX |
| `VrOrder.TurnsTooEarly` | block/vr-iosched.c:254-282 | With rev_penalty 10 the head turns round for a request 5 behind though one 19 ahead is cheaper |
| `VrOrder.ForwardIff` | block/vr-iosched.c:254-282 | Moving forward, the choice is the documented one whatever is behind if and only if remainder and rounded-up quotient of the distance ahead agree, with one for zero |
| `VrOrder.BackwardIff` | block/vr-iosched.c:254-282 | Moving backward, the choice is the documented one whatever is ahead if and only if remainder and quotient of the distance behind agree |
| `Tags.BitMeansCarried` | block/blk-tag.c:337-384 | A bit is set if and only if some request carries the tag, and no two requests carry one |
| `Tags.PickFree` | block/blk-tag.c:358-372 | The tag picked is the lowest free one; a sync request is refused if and only if all tags are taken, and an async one if and only if those it may use, all but two, are taken or as many async requests are in flight already |
| `Tags.ResizeKeeps` | block/blk-tag.c:220-264 | The copies stay within bounds if and only if the request is for no more than the old real depth or the clamped depth is not below it; then the depth is the one asked for, or the clamped one, every tag in flight keeps its slot and new slots are free |
| `Tags.ResizeCanOverflow` | block/blk-tag.c:108-137 | A map of 256 tags on a queue of 64 requests, resized to 512, is copied into 128 slots |
| `Tags.TagsAgree` | block/blk-tag.c:282-384 | In every state of every run a bit is set if and only if tag_index holds exactly the request that carries the tag |
| `Tags.SyncTagsReserved` | block/blk-tag.c:358-372 | Without resizes and with at least three tags, async requests never hold more than all but two |
| `Tags.BusyIsStartOrder` | block/blk-tag.c:399-406 | In every run the busy list reversed is the order in which the requests in flight were started |
| `TagsCode.TagMap.Start` | block/blk-tag.c:337-384 | The in-place code with its bit scan computes the specified state, and refuses exactly when no tag can be picked |
| `TagsCode.TagMap.End` | block/blk-tag.c:282-316 | The in-place code computes the specified state; its complaints are unreachable |
| `TagsCode.TagMap.Resize` | block/blk-tag.c:220-264 | The in-place code, when its copies stay within bounds, computes the specified state and keeps all tags in flight |
| `TagsCode.TagMap.PutBack` | block/blk-core.c:975-987 | A requeued request gives back its tag and goes to the front of the dispatch queue |
| `TagsCode.TagMap.Invalidate` | block/blk-tag.c:399-406 | Every tag is free at the end, and the requests stand in front of the dispatch queue in the reverse of the busy list, the order in which they were started |
| `CamelliaNetwork.RoundTrip` | crypto/camellia.c:942-995 | For every table of either size and every block, decryption with the caller's half swap undoes encryption, given only that FL and FLINV are inverse |
| `CamelliaNetwork.GroupsSim` | crypto/camellia.c:887-940 | After every group of rounds the code's state is the RFC's state with a known key xored into each half |
| `CamelliaNetwork.TableEncryptIsRfc` | crypto/camellia.c:887-940 | For every set of raw subkeys the cipher over the mixed table is the plain cipher with both whitenings |
| `CamelliaCode.AbsorptionTelescopes` | crypto/camellia.c:387-559 | The absorbed whitening keys cancel in every table entry except where they belong |
| `CamelliaCode.AbsorbKw2` | crypto/camellia.c:387-429 | The in-place code carries kw2 forward across each FLINV layer into every even key |
| `CamelliaCode.AbsorbKw4` | crypto/camellia.c:416-468 | The in-place code carries kw4 backward across each FL layer into every odd key |
| `CamelliaCode.EmitTable` | crypto/camellia.c:470-559 | The in-place code writes each entry's key difference, with FL keys unchanged, for both sizes |
| `CamelliaCode.UndoLastHalfOfP` | crypto/camellia.c:561-577 | The loop changes exactly the round entries |
| `CamelliaCode.SetupTail` | crypto/camellia.c:381-578 | From any raw subkeys the in-place code builds the table that the cipher theorem is about |
| `CamelliaCode.DoEncrypt` | crypto/camellia.c:887-940 | The unrolled in-place code computes the table cipher, up to the caller's half swap |
| `CamelliaCode.DoDecrypt` | crypto/camellia.c:942-995 | The loop computes the inverse network, last group first |
| `Camellia.FLInverts` | crypto/camellia.c:854-868 | FL and FLINV, on words, undo each other under every key |
| `Camellia.FLInvIsAffine` | crypto/camellia.c:387-468 | A key difference crosses FLINV exactly as the setup code carries it |
| `Camellia.LookupPermutes` | crypto/camellia.c:870-885 | The four table lookups and the rotation compute the P-function, byte by byte |
| `Camellia.MaskIsSubstXorKey` | crypto/camellia.c:870-885 | With an entry from the table, the round macro xors in the F-function without its key, and the raw key difference |
| `Camellia.WordOpsLawful` | crypto/camellia.c:854-885 | The word operations satisfy every law the network theorems need, for all S-boxes |
| `CamelliaRfc.JoinFL` | crypto/camellia.c:854-868 | FL and FLINV on two words are those of sections 2.4.2 and 2.4.3 of RFC 3713 on the 64-bit value they make |
| `CamelliaRfc.JoinSubst` | crypto/camellia.c:870-885 | The S-boxes and the P-function on two words are the F-function of section 2.4.1 of RFC 3713 |
| `CamelliaRfc.EncryptIsRfc3713` | crypto/camellia.c:887-940 | For every raw subkey set and all S-boxes, encryption with the code's table is the cipher that sections 2.3 and 2.4 of RFC 3713 write on 64-bit values |
| `Camellia.DecryptInvertsEncrypt` | crypto/camellia.c:942-995 | Decryption inverts encryption for every table whatsoever |
| `CamelliaRfc.EncryptAndDecrypt` | crypto/camellia.c:1033-1079 | From raw subkeys through setup, encryption and decryption: the ciphertext is that of RFC 3713, and the plaintext comes back |
| `Cbc.DecryptInverts` | crypto/cbc.c:114-191 | For every block permutation and data of every length, decryption inverts encryption |
| `Cbc.EncryptChains` | crypto/cbc.c:42-112 | At every block the ciphertext is the cipher of the plaintext block exclusive-or the ciphertext block before, the IV before the first; bytes that fill no block stay |
| `Cbc.DecryptChains` | crypto/cbc.c:114-191 | At every block the plaintext is the inverse cipher of the ciphertext block exclusive-or the ciphertext block before |
| `Cbc.ChunksEncryptAsOne` | crypto/cbc.c:90-112 | However the data is cut into chunks of whole blocks, the driving loop with the carried IV equals one pass |
| `Cbc.ChunksDecryptAsOne` | crypto/cbc.c:169-191 | The same for decryption |
| `Cbc.EncryptAll` | crypto/cbc.c:90-112 | Whatever chunks of whole blocks the walk hands out, each in place or not, the loop leaves the ciphertext of one pass over all of them and its last block in the IV |
| `Cbc.DecryptAll` | crypto/cbc.c:169-191 | The loop leaves the plaintext of one pass and the last ciphertext block in the IV |
| `Cbc.EncryptSegment` | crypto/cbc.c:42-64 | The loop leaves the ciphertext of all whole blocks, the last block in the IV, all other bytes as they were, and returns the rest |
| `Cbc.EncryptInPlace` | crypto/cbc.c:66-88 | The in-place loop satisfies the same contract over one buffer |
| `Cbc.DecryptSegment` | crypto/cbc.c:114-138 | The loop leaves the plaintext of all whole blocks, the last ciphertext block in the IV, and all other bytes as they were |
| `Cbc.DecryptInPlace` | crypto/cbc.c:140-167 | The backward in-place loop leaves the plaintext of forward decryption and the last ciphertext block in the IV |
| `Cbc.ForwardIsWhole` | crypto/cbc.c:114-138 | What the forward loop leaves is, block for block and in the IV, what the backward loop leaves |
| `SpawnKeeping.TakeKeeps` | crypto/algapi.c:151-165 | Taking up a spawn keeps the invariant of the walk: the stack is a path from alg, and what is kept so far is kept for something that leads to the new algorithm |
| `SpawnKeeping.PopKeeps` | crypto/algapi.c:85-106 | So does crypto_more_spawns, which may keep the spawn below the one it takes off the stack |
| `SpawnKeeping.WalkComplete` | crypto/algapi.c:151-171 | When the walk is over, the spawns passed are those of exactly the instances reachable from alg |
| `SpawnKeeping.KeptIffOneSpawnEach` | crypto/algapi.c:85-106 | The walk keeps exactly the spawns that lead to the new algorithm if no instance on the way has two spawns in it; where nothing is built on itself, only then |
| `SpawnCode.Walk` | crypto/algapi.c:151-171 | The nested loops terminate for every graph and every new algorithm, stop at the BUG_ON only if alg is reachable from itself, and otherwise pass everything and keep the invariant of the walk |
| `SpawnCode.Registry.SelectTop` | crypto/algapi.c:143-149 | The first loop moves exactly the spawns of alg for which the old and the new type agree under their mask, all of them when alg is unregistered |
| `SpawnCode.Registry.RemoveSpawn` | crypto/algapi.c:108-130 | The instance is dead; it leaves its template for the caller's list exactly if it was alive, listed and its template can be held, and the BUG_ON fires exactly if it then has users |
| `SpawnCode.Registry.Settle` | crypto/algapi.c:173-178 | The last loop puts the kept spawns back on their lists and kills exactly the instances of the others; no other list changes |
| `SpawnCode.NoneGoBack` | crypto/algapi.c:173-178 | Where nothing is built on itself, and always without a new algorithm, no spawn goes back to an instance that is removed later, so the BUG_ON of crypto_remove_spawn does not fire |
| `SpawnCode.Registry.RemoveSpawns` | crypto/algapi.c:132-179 | Of the spawns passed, those kept lead to the new algorithm and are back on their lists, the instances of the others are dead, and no other spawn moves; the kept ones are all that lead to it under the exact condition; a BUG_ON fires if alg is reachable from itself, and otherwise only if something else is built on itself |
| `SpawnCode.DeadExactly` | crypto/algapi.c:132-179 | Under that condition exactly the reachable instances that do not lead to the new algorithm die |
| `SpawnCode.TwoSpawnsLoseInstance` | crypto/algapi.c:85-106 | An instance with two spawns on the old algorithm ends dead while the new algorithm, built on it, stays on its list |
| `SpawnCode.Registry.RemoveAllSpawns` | crypto/algapi.c:374-386 | Unregistering alg kills exactly the instances reachable from it and leaves them without users, all other lists stay, and a BUG_ON fires if and only if alg is reachable from itself |

## Left out

- Locks, RCU, interrupts, memory ordering and timers: each locked section is one step.
- Red-black rebalancing and hlist internals: trees are sorted sequences with the leftmost cache, buckets are sequences.
- Barriers: only fs requests carry the barrier flag, and the ordering mode of a queue is fixed before its first request.
- Barriers in the tag modes: what the device does with ordered tags is not modelled, so safety is claimed for the drain modes only.
- BarrierRuns.BarrierSafety: which requests the scheduler dispatches and when is left open, and so is the order of completions.
- Barriers: adding and merging requests are steps on values; only blk-barrier.c, fetching, completion, requeueing and sorted dispatch are modelled as updates in place.
- CFQ: the key of a service-tree insertion, the charge of a slice and the outcome of each test of the clock are arguments; the priority trees that find a cooperator are not modelled, so any queue with requests may be one.
- CFQ: cfq_queue and cfq_group structures are values in maps; pointers to them, reference counts and their freeing are not modelled.
- CFQ: changes of a group's weight while it is queued, and grp_service_tree.count, which nothing reads.
- CfqGroups.GroupsStayClose: does not cover slices handed over to a cooperator, which bypass the choice of a group.
- CfqCode.CfqData.ForcedDispatch: says which requests reach the dispatch list, not in which order elv_dispatch_sort puts them.
- CfqCooperators.LinksStayAcyclic: queues are freed at any time, without regard to their references.
- Segments: DMA padding and drain entries, and the limits on a request's sectors.
- Segments: bios and requests are values, so the merge functions return what the code writes in place.
- SegmentMerges.CountsStaySound: bios carry data, because the claim is false otherwise (SegmentMerges.DatalessTailUndercounts).
- SegmentMerges.LimitIsKept: that a new bio, or the recount after a partial completion, is within the limit is left to their makers.
- SegmentMerges.SoundIffTailHasData: the condition is exact for requests whose count is tight and that have room for a byte in the last segment and for its segments in the limit.
- Merge index: the tests of elv_rq_merge_ok other than rq_mergeable, and sizes that are not whole sectors; the hash function is arbitrary.
- Completion: discards, the barrier proxy and mixed merges, which the loop treats differently; errors and statistics.
- Completion.Request.Update: byte counts are multiples of the sector size.
- Deadline: negative settings, and last_sector, which nothing reads.
- DeadlineOrder.BatchGoesUp: a front merge moves the first sector down, as a bio in front of a request does.
- V(R): the settings are fixed during a run.
- Vr.FrontMergedKeeps: a request's new first sector is one at which the same request does not already stand.
- Tags: maps shared between queues, the refusal to resize them, failing allocations, and the retry loop of tag setting, which has no competitor here.
- TagsCode.TagMap.Resize: requires the exact condition of Tags.ResizeKeeps, since beyond it the code writes out of bounds.
- SpawnKeeping.KeptIffOneSpawnEach: the only-then half supposes that nothing is built on itself, which holds of instances made from existing algorithms.
- Spawns: freeing of instances, the notifications of crypto_remove_alg and the order of the list of removed instances.
- Cbc.EncryptAll: the walk over scatter lists is given by the chunks it hands out, whole blocks each; the loop copies them to and from buffers. A block size is any positive number, and the rest is the remainder by it.
- Camellia: the schedule of raw subkeys before camellia_setup_tail, the S-box tables and byte order; the theorems hold for all raw subkeys and all S-boxes.
- AES, Anubis, Blowfish, ARC4, hashes, authenc and the block cipher walks.
- blk-cgroup, bsg, ioctl, genhd, sysfs, blk-map and blk-integrity.
