# A verified model of the slipstreamIO engine

slipstreamIO is io_uring in user space: submitted ops are carved from a fixed pool, run inline
when they can be, and otherwise parked with a readiness backend or handed to a worker; their
completions go through a bounded completion queue (CQ) with an overflow backlog. This project
models that engine, its readiness backends, its dispatch backend and its inotify emulation in
Dafny 4.11 and proves what their comments promise, or exactly when the code keeps it.
`dafny verify dfyconfig.toml` checks everything.

The modules, one per file:

- `EngineCore` is the engine's state between two locked sections and what each section does to it.
  An op is named by its slot in the pool, as the C code names it by address; slots are reused.
- `EngineSystem` is the interleaved machine: the submitter inside enter, the worker thread, the
  caller moving the CQ head, other rings sending messages. Every action holds at most one locked
  section. The caller takes no lock: it reads between actions and inside them, before every test for
  room, which is the only place where the engine looks at the head. What system calls and backends
  answer is nondeterministic. `EngineOwnership`, `EngineTickets`, `EngineChains`, `EngineLog` and
  `EngineWorker` prove its invariants over every run; `EngineFindings` draws the consequences,
  `EngineWindow` those of the worker's two locked sections; `EngineReached` has runs from setup to
  every place where the engine keeps less than its comments say.
- `SlipRing` is the ring as the code keeps it: a class over arrays, one `next` link per op threading
  free list, queue, worker queue and backlog (`IntrusiveList`, `EngineThreads`), waiting[] with each
  op's place in it, and the memory of the completion queue (`CompletionRing`). Each method is one of
  the source's, with its loops, proved to do what the functions of `EngineCore`, `EngineCancel` and
  `EnginePasses` say. `EngineAnswers` proves what a pass says to the caller and where it leaves
  each op, `EngineRefines` that the passes are runs of the machine on the answers the world gives, so
  the invariants over all runs hold of the ring too.
- `FixedTable` is the fixed file table, `Multishot` the multishot receives and accepts with the
  provided-buffer rings.
- `Readiness`, `EpollBackend`, `KqueueBackend`: waiters by descriptor and direction, the stale
  interest cache, and select's scan as the plain form they speed up. The kernel's set is part of the
  state; descriptors closing and their numbers coming back are steps of the environment.
- `Dispatch`: the semaphore that is signalled on transitions only, and the index-linked ready chain.
- `InotifyQueue`, `DirectoryDiff`, `DirectoryWatch`: the bounded queue of records in bytes, the
  comparison of two listings and the watch that queues it, as the kqueue arm has them.
- `Lists` holds what is needed about sequences.

The behavioural references are the manual pages io_uring_enter(2) (IOSQE_IO_LINK,
IOSQE_CQE_SKIP_SUCCESS) and inotify(7); counters wrap as ISO C11, section 6.2.5, paragraph 9 has it.

## Where the code keeps less than its comments say

Each of these is stated with the exact condition, or with the states it arises from.

- A linked MSG_RING that fails does not fail its chain, and a cancel that takes a linked op off the
  submit queue fails the chain that happens to come next. These two steps, and no others, break the
  chain law (`EngineChains.ChainExact`, `EngineFindings.MsgFailureRunsNext`,
  `EngineFindings.CancelPoisonsNext`; runs: `EngineReached.MsgFailureReached`,
  `EngineReached.CancelPoisonReached`).
- The worker raises its ticket in one locked section and posts in another. A settle in between lets
  the next member of the chain answer first (`EngineLog.InOrderIff`, `EngineWindow.NoEarlyExact`,
  `EngineWindow.WindowExact`, `EngineWindow.EarlySettleReorders`; a run:
  `EngineReached.ReorderReached`).
- A caller that moves the CQ head between the drain loop of a post or an emission and its room test
  lets the new completion overtake the backlog (`EngineLog.FifoExact`,
  `EngineFindings.OvertakingExact`; a run: `EngineReached.OvertakingReached`).
- epoll: a refused registration while another op waits on the descriptor zeroes a cache that was
  true, and the next park can take the waiting op's direction out of the kernel set
  (`EpollBackend.ArmExact`, `EpollBackend.RefusalLosesWakeup`). An op that asks for both directions
  sits on one side only (`Readiness.HandedExact`, `EpollBackend.BothDirectionsLoseOne`). kqueue has
  no such condition (`KqueueBackend.SaneAlways`, `KqueueBackend.Backend.NoneForgotten`).
- inotify: a directory that becomes empty is not reported (`DirectoryDiff.LookExact`); when the
  queue is full to its last byte a loss leaves no overflow record (`InotifyQueue.LossIsTold`); the
  overflow record is written without a look at the buffer's size, which is safe exactly while no
  record exceeds half the bound (`InotifyQueue.OverflowFitsExact`).
- A multishot accept into a named slot ends with -EBUSY at its second connection
  (`Multishot.NamedSlotTakesOne`). The comment at src/engine_internal.h:229-236 says that an occupied
  slot is replaced; the code refuses it, and the model follows the code.

## Model

| member | source | states |
|---|---|---|
| EngineFindings.EngineAlways | src/slipstream_engine.c:753-834 | From setup, in every interleaving of submitter, worker, other rings and a caller that reads between the locked sections and inside them: each pool slot is in exactly one place, the stall names the one linked op that is out, every submission has exactly the final completion it is owed, with its own user_data, the result its fate gives and no F_MORE, no accepted completion is lost, doubled or overwritten, and they reach the caller in order unless a step overtakes, which takes a read inside a locked section; chains obey their law without the two irregular steps, and answer in order if and only if no op posts its answer after it was passed, which takes a settle inside the ticket window; what was put off holds a looked-up descriptor, and the worker answers in submission order |
| EngineFindings.ReadTells | src/slipstream_engine.c:211-247 | Whatever the caller reads or will read is a message from a ring, or carries the user_data of the submission it belongs to and, if it is the final one, that submission's result: its own, or -ECANCELED with its chain |
| EngineOwnership.OwnedKept | src/slipstream_engine.c:143-247 | One step of any process keeps the partition of the pool over free list, batch, queue, waiting[], worker queue, hands and backlog, and the pairing of slots in use with unanswered submissions |
| EngineOwnership.OwnedAlways | src/engine_posix.c:838-922 | No op is lost or released twice in any reachable state of any interleaving |
| EngineTickets.SoundKept | src/slipstream_engine.c:303-416 | One step keeps submission order, at most one linked op out, and a `blocking` that names it soundly although slots are reused |
| EngineTickets.SoundAlways | src/engine_posix.c:849-860 | The same over every run of all processes |
| EngineTickets.HeldFacts | src/slipstream_engine.c:314-370 | While the submitter executes an op nothing is stalled, no ticket is up, and the op in hand is the only linked one out |
| EngineTickets.RaiseFacts | src/engine_posix.c:849-860 | When the worker raises a ticket, the op it names is the one the queue stalls on and no earlier ticket stands |
| EngineTickets.CompleteComparesSoundly | src/slipstream_engine.c:303-311 | The pointer comparison of a completion clears the stall exactly when the completed op is the op the queue stalls on |
| EngineTickets.SettleComparesSoundly | src/slipstream_engine.c:404-416 | The ticket's pointer comparison matches only the stalled submission, even when its slot was freed and taken again |
| EngineTickets.CancelFindsUnlinked | src/engine_posix.c:936-1000 | Whatever a cancel finds parked or at the worker is unlinked and not the stalled op |
| EngineTickets.DequeueStream | src/slipstream_engine.c:313-318 | Taking the front of the queue does not change the stream of submissions |
| EngineChains.ChainExact | src/slipstream_engine.c:313-371 | One step keeps the chain law if and only if it is neither a failing linked MSG_RING nor a cancel of a linked op still queued |
| EngineChains.ChainedAlways | src/slipstream_engine.c:303-416 | The chain law holds throughout every run without such a step, whether ops finish inline, parked or at the worker |
| EngineChains.ExecutedAfterSuccess | src/slipstream_engine.c:313-371 | A chain member was executed only if every member before it had completed with res >= 0 by then |
| EngineChains.FailureCancelsRest | src/slipstream_engine.c:322-333 | After the first failing linked member none of the rest executes: each is cancelled, quietly exactly when the failing op carried SKIP_SUCCESS |
| EngineChains.NextChainUntouched | src/slipstream_engine.c:332-332 | The first member of a chain is executed whatever happened to the chain before |
| EngineChains.CancelledHasCause | src/slipstream_engine.c:322-333 | Every cancelled member has a failing member before it in its own chain |
| EngineLog.LoggedKept | src/slipstream_engine.c:190-247 | One step keeps: a submission in flight has no final completion, a finished one has exactly the one it is owed (none for a silent success or a quiet cancellation), nothing follows a final completion, and every completion of a submission carries the user_data submitted and says F_MORE exactly when it is not the final one, which carries the result |
| EngineLog.LoggedAlways | src/slipstream_engine.c:190-247 | The same over every run |
| EngineLog.FlowStep | src/slipstream_engine.c:190-247 | One step accepts at most one completion, and puts it behind everything older but for what stands in the backlog after the drain loop found the CQ full and the caller then made room |
| EngineLog.ConservedKept | src/slipstream_engine.c:190-247 | One step keeps: what the caller has read, can read and will find backlogged is what was accepted, each as often, and the CQ holds no more than its entries |
| EngineLog.FifoExact | src/slipstream_engine.c:190-247 | One step keeps that in the order it was accepted if and only if it accepts nothing that comes before a completion it can be told from |
| EngineLog.FlowAlways | src/slipstream_engine.c:171-247 | Both over every run, reads inside locked sections included |
| EngineLog.AtomicNoneOvertakes | src/slipstream_engine.c:171-247 | While the caller moves its head between locked sections only, nothing overtakes |
| EngineLog.InOrderExact | src/engine_posix.c:849-860 | One step keeps the answers of every chain in its order if and only if it is not the worker posting an answer that is not silent of a linked op that was passed |
| EngineLog.InOrderIff | src/engine_posix.c:849-860 | A run answers in chain order if and only if no step of it is such a post |
| EngineLog.InOrderAlways | src/slipstream_engine.c:404-416 | A run without a settle in the ticket window has no such post |
| EngineLog.ChainAnswersInOrder | src/slipstream_engine.c:364-369 | For two members of one chain the completion of the earlier one stands first |
| EngineWorker.ResolvedKept | src/slipstream_engine.c:336-352 | One step keeps: every op that was put off, parked, at the worker or being retried, had its fixed-file index looked up |
| EngineWorker.ResolvedAlways | src/slipstream_engine.c:336-352 | So parking, retries, cancel by descriptor and the worker speak of real descriptors in every reachable state |
| EngineWorker.WorkInOrderKept | src/engine_posix.c:844-872 | One step keeps what the worker holds and what waits for it in the order of submission |
| EngineWorker.WorkInOrderAlways | src/engine_posix.c:844-872 | The worker answers in the order of submission over every run, although ops are cancelled from its queue and slots reused |
| EngineWindow.NoEarlyExact | src/engine_posix.c:849-860 | A step leaves the queue stalled until the answer is posted exactly when it is not a settle between the worker's ticket and the worker's post |
| EngineWindow.EarlySettleReorders | src/slipstream_engine.c:404-416 | From every state with that window open, whatever the worker's answer unless it is a silent success, there is a run that settles at once and ends out of order, as long as some queued op will be answered aloud: cancelled with its chain, refused for its descriptor, or finished other than silently |
| EngineWindow.WindowExact | src/engine_posix.c:849-860 | In that window, before the worker posts, others can bring it about that its answer comes out of turn if and only if the answer is not a silent success and some op of the pool other than its own is not waiting for the worker |
| EngineFindings.MsgFailureRunsNext | src/slipstream_engine.c:358-361 | After a linked MSG_RING failed, the next op comes off the queue to be executed and is not cancelled |
| EngineFindings.CancelPoisonsNext | src/engine_posix.c:936-981 | After a linked op was cancelled on the queue, the op then at the front is cancelled although its own chain did not fail |
| EngineFindings.ParkNeverFull | src/engine_posix.c:882-893 | An op in the submitter's hand always has room in waiting[]: the branch for a full set is never taken |
| EngineFindings.DoneNeverFull | src/engine_internal.h:106-115 | Parked ops, the one being retried and the answers collected never exceed the pool |
| EngineFindings.CloseFindsAll | src/slipstream_engine.c:702-716 | With nobody inside and the worker joined, every slot is free or on exactly one list that close walks, once |
| EngineFindings.AlreadyNeverAnswered | src/engine_posix.c:1002-1005 | The answer -EALREADY is never given |
| EngineFindings.OvertakingExact | src/slipstream_engine.c:190-247 | A post or an emission goes behind everything older if and only if it is silent or equal to all it comes before; a dropped one changes nothing |
| EngineReached.ReorderReached | src/engine_posix.c:849-860 | From setup, for any linked op that goes to the worker, any op behind it and any answers but silent ones, there is a run that ends out of chain order |
| EngineReached.MsgFailureReached | src/slipstream_engine.c:358-361 | From setup, for any linked message that fails and any op behind it, there is a run that ends with the chain law broken and the next member about to execute |
| EngineReached.CancelPoisonReached | src/engine_posix.c:936-981 | From setup, for any unlinked cancel, a linked op it names and any op behind that, there is a run after which the last one is cancelled against the chain law |
| EngineReached.OvertakingReached | src/slipstream_engine.c:231-247 | From setup of one entry, for any three messages the last two of which differ, there is a run after which the third comes before the second |
| EngineCore.DrainFacts | src/slipstream_engine.c:190-198 | Draining keeps what the caller gets and its order, moves backlogged completions into the CQ until one side gives out, and touches nothing else |
| EngineCore.PostFacts | src/slipstream_engine.c:211-226 | A final completion, with the op's own user_data, the result and no F_MORE of the post's making, stands behind everything older but for what is late, or nowhere when it is a silent success |
| EngineCore.EmitFacts | src/slipstream_engine.c:231-247 | An emission stands behind everything older but for what is late, and is dropped exactly when the CQ is full and the pool empty |
| EngineCore.OverflowCounts | src/slipstream_engine.c:200-247 | `overflow` goes up by one, modulo 2^32, exactly for a completion that found the CQ full |
| EngineCore.PostIdle | src/slipstream_engine.c:211-226 | A post puts its slot on the free list or the backlog, and moves other slots only between these two |
| EngineCore.EmitKeeps | src/slipstream_engine.c:231-247 | An emission leaves every slot in use as it is |
| EngineCancel.CancelAllExact | src/engine_posix.c:949-1006 | With CANCEL_ALL nothing that matches is left parked, queued or at the worker, everything else is, and both queues keep their survivors in order |
| EngineCancel.CancelAllCount | src/engine_posix.c:949-1006 | With CANCEL_ALL the answer is the number of ops that went, or an error if none did |
| EngineCancel.CancelOneExact | src/engine_posix.c:949-1006 | Without it exactly the first match goes, parked before queued before the worker's, and the answer is 0; with no match nothing changes |
| EngineCancel.CancelFails | src/engine_posix.c:1002-1005 | The answer is an error if and only if no op in any of the three places matched |
| EngineCancel.ScanOrder | src/engine_posix.c:966-1000 | A scan of a linked list leaves the ops before it and the survivors behind, in order |
| EngineAnswers.CancelMatchingTells | src/engine_posix.c:949-1006 | Whatever is cancelled: it was aimed at (polls by user_data for POLL_REMOVE, by descriptor with CANCEL_FD, else by user_data), it leaves its list once, the caller is told -ECANCELED with its user_data, everything else stays, and the answer is the count, 0 or the error |
| EngineAnswers.CancelAllTakes | src/engine_posix.c:927-934 | With CANCEL_ALL every op with that descriptor, or with that user_data, is gone from all three places and every other stays as often as it was there |
| EngineAnswers.PollRemoveFinds | src/engine_posix.c:927-931 | POLL_REMOVE answers an error if and only if no poll has that user_data, whatever else has it |
| EnginePasses.FinishReadyExact | src/engine_posix.c:1032-1055 | Every ready op comes back exactly once, answered or parked again; every other parked op stays parked |
| EnginePasses.ReadyFits | src/engine_posix.c:1032-1055 | Distinct parked ops always fit the room a wait offers, so the retry loop visits all of them |
| EnginePasses.VisitableNext | src/engine_posix.c:1032-1055 | While one ready op is retried the ones not visited yet stay parked |
| EngineAnswers.TranslateTells | src/slipstream_engine.c:336-352 | A fixed-file index becomes the descriptor looked up and the flag comes off, but for SOCKET and NOP; nothing else of any op changes |
| EngineAnswers.LookupFailTells | src/slipstream_engine.c:345-349 | An index that names nothing: the caller gets -EBADF once, and a linked op's chain fails |
| EngineAnswers.FinishTells | src/engine_posix.c:1008-1030 | An attempt that finished: the caller gets its emissions and then its completion with exactly that result, nothing if that is a silent success, and the chain fails if and only if the op is linked and the result negative |
| EngineAnswers.EmitAllTells | src/slipstream_engine.c:231-247 | Emissions of an op in hand come in order, each with the op's user_data and F_MORE, less exactly those that find the CQ full and the pool empty |
| EngineAnswers.HeardAll | src/slipstream_engine.c:231-247 | With as many free ops as emissions none is dropped |
| EngineAnswers.ParkTells | src/engine_posix.c:882-893 | One that would block and is armed says no more than its emissions, stands last in waiting[] and stalls the queue if linked |
| EngineAnswers.FileTells | src/engine_posix.c:911-922 | One for the worker says nothing, stands last in the worker's queue and stalls the queue if linked |
| EngineAnswers.MsgTells | src/slipstream_engine.c:358-361 | A message puts its completion into this ring if that is its target, then answers; the chain is left alone |
| EngineAnswers.CancelTells | src/engine_posix.c:1009-1012 | A cancel in hand: its victims are told first, then its own answer comes and decides its chain |
| EngineAnswers.RetryTells | src/engine_posix.c:1036-1052 | A retried op's emissions are said, its answer is the attempt's, -EOPNOTSUPP for a file op, and it is parked again if and only if it would block and is armed |
| EngineAnswers.FinishReadyTells | src/engine_posix.c:1032-1055 | Every answer a wait collects is the one its own op's attempt gave |
| EngineAnswers.WaitTells | src/slipstream_engine.c:820-824 | However a turn of the wait goes, no ticket for the stalled op stands after it and the backlog is empty or the CQ full; an op whose ticket was up stalls no more, its failure is the chain's, and the queue did not run meanwhile |
| EngineAnswers.WorkerTells | src/engine_posix.c:844-862 | The worker answers the op that waited longest with what the call gave; for a stalling one the ticket names it and says whether its chain failed |
| EnginePasses.TakeInStops | src/slipstream_engine.c:769-784 | Intake stops at the ring's end, at to_submit, or at the first good entry that finds the pool empty |
| EnginePasses.TakeInTakes | src/slipstream_engine.c:769-784 | Each good entry taken gets the next free op, the others count as dropped, and both count as submitted |
| EnginePasses.TakeInCopies | src/slipstream_engine.c:773-775 | The j-th op of the batch holds exactly the j-th good submission, everything else zeroed |
| EngineThreads.ParkFits | src/engine_posix.c:888-888 | Whenever an op is on no list, waiting[] has room for it |
| EngineRefines.QueueRun | src/slipstream_engine.c:313-371 | Running the queue is a run of the interleaved machine in which nobody else moves and every step takes what the world holds for its op: the descriptor, the emissions, the verdict, the result |
| EngineRefines.WaitRun | src/slipstream_engine.c:820-824 | One turn of the wait loop is such a run, from the ready ops to the settling of the ticket, which is its last step |
| EngineRefines.SubmitRun | src/slipstream_engine.c:769-794 | Intake and the queue pass after it are such a run, and it begins by taking in exactly the submissions TakeIn counts |
| EngineRefines.WorkerRun | src/engine_posix.c:844-862 | One turn of the worker is a run in which only the worker moves |
| CompletionRing.Cq.constructor | src/slipstream_engine.c:446-447 | An empty queue of a power-of-two size |
| CompletionRing.Cq.Put | src/slipstream_engine.c:179-186 | The entry goes behind the unread ones and overwrites none, across the wrap of the 32-bit counters |
| CompletionRing.Cq.HasRoom | src/slipstream_engine.c:171-177 | Room exactly when fewer than all entries are unread, by the wrapped difference of the counters |
| CompletionRing.Cq.Advance | src/slipstream_engine.c:164-169 | Moving the head removes exactly the oldest unread entries |
| IntrusiveList.Popped | src/slipstream_engine.c:315-317 | Following the head's link leaves the list without its front |
| IntrusiveList.Pushed | src/slipstream_engine.c:159-162 | A slot linked to the old head is the front of the list |
| IntrusiveList.Appended | src/slipstream_engine.c:789-792 | Linking the last slot to another list's head joins the two |
| IntrusiveList.CutInside | src/engine_posix.c:966-980 | Linking past a slot removes exactly that slot |
| SlipRing.Ring.constructor | src/slipstream_engine.c:455-490 | Setup threads every op of the pool on the free list, first one first |
| SlipRing.Ring.AllocLocked | src/slipstream_engine.c:143-149 | The front of the free list, zeroed, or null exactly when it is empty |
| SlipRing.Ring.ReleaseOp | src/slipstream_engine.c:159-162 | The op goes to the front of the free list |
| SlipRing.Ring.PostLocked | src/slipstream_engine.c:179-186 | One more unread completion, nothing else changed |
| SlipRing.Ring.DrainBacklogLocked | src/slipstream_engine.c:190-198 | The backlog is drained as far as the CQ has room, each op given back |
| SlipRing.Ring.BacklogLocked | src/slipstream_engine.c:200-209 | The op joins the backlog's tail with its result, and overflow counts it |
| SlipRing.Ring.PostOp | src/slipstream_engine.c:211-226 | Drained, then silent, posted or backlogged: the state of PostFacts, on the links |
| SlipRing.Ring.EmitCqe | src/slipstream_engine.c:231-247 | Drained, then posted, carried on a borrowed op, or only counted: the state of EmitFacts, on the links |
| SlipRing.Ring.CompleteOp | src/slipstream_engine.c:303-311 | The stall and the chain's standing are settled, then the op is posted |
| SlipRing.Ring.SettleWorkerTicket | src/slipstream_engine.c:404-416 | A ticket that names the stalled op ends the stall and hands its failure on; the backlog is drained either way |
| SlipRing.Ring.ParkOp | src/engine_posix.c:882-893 | The op joins waiting[] and knows its place, if and only if the backend armed it |
| SlipRing.Ring.UnparkOp | src/engine_posix.c:898-909 | The last parked op takes the place of the one that leaves; an op that is not parked is recognised and nothing changes |
| SlipRing.Ring.HandToWorkerOp | src/engine_posix.c:911-922 | The op joins the worker queue's tail, marked as stalling exactly when linked |
| SlipRing.Ring.WorkerTakeOp | src/engine_posix.c:844-847 | The worker takes the front of its queue |
| SlipRing.Ring.RaiseTicketFor | src/engine_posix.c:849-859 | The ticket names the op and says how it leaves its chain |
| SlipRing.Ring.WorkerOnce | src/engine_posix.c:844-862 | Take, ticket, post on the ring's own links: the turn of WorkerTells and WorkerRun |
| SlipRing.Ring.CancelTargetOp | src/engine_posix.c:936-944 | The cancelled op's chain fails if it was linked or stalled the queue, and it answers -ECANCELED |
| SlipRing.Ring.ScanParked | src/engine_posix.c:954-964 | The swap-removing scan of waiting[] does what the scan of EngineCancel says, and ends |
| SlipRing.Ring.ScanLinked | src/engine_posix.c:966-1000 | The pointer-to-pointer scan of a queue does the same, the tail found again when the last op went |
| SlipRing.Ring.CancelMatchingOps | src/engine_posix.c:949-1006 | The three scans and the answer together, as CancelAllExact, CancelOneExact and CancelFails describe them |
| SlipRing.Ring.ExecuteHeld | src/engine_posix.c:1008-1030 | Cancel, finish, park or hand over, and what is left to answer, as FinishTells, ParkTells, FileTells and CancelTells say |
| SlipRing.Ring.RunHeldOp | src/slipstream_engine.c:343-369 | The op off the queue: its descriptor resolved or -EBADF, messages, execution, its chain's standing or the stall |
| SlipRing.Ring.CancelFrontOp | src/slipstream_engine.c:322-334 | The front of a failed chain is released quietly or answered -ECANCELED; the chain ends with its first unlinked op |
| SlipRing.Ring.ProcessQueue | src/slipstream_engine.c:313-371 | The loop does what QueueRun relates to the machine and the Tells lemmas say of each op, for any answers of the backend |
| SlipRing.Ring.FinishReadyOps | src/engine_posix.c:1032-1055 | The retry loop on the ring's own links, with FinishReadyExact's outcome |
| SlipRing.Ring.CompleteEach | src/slipstream_engine.c:822-822 | The answers of a wait are completed one by one in order |
| SlipRing.Ring.WaitOnce | src/slipstream_engine.c:820-824 | Retry, complete, run the queue, settle the ticket: the pass of WaitRun; afterwards no ticket for the stalled op stands, a failure it carried is the chain's, and the backlog is empty or the CQ full |
| SlipRing.Ring.TakeInOps | src/slipstream_engine.c:768-784 | The intake loop threads the batch in order and counts as TakeInTakes says |
| SlipRing.Ring.Submit | src/slipstream_engine.c:766-794 | Intake, the batch joined to the queue's tail, and the queue run exactly when the batch is not empty |
| SlipRing.Ring.Close | src/slipstream_engine.c:694-716 | Every op that was on a list or parked is back on the free list, each exactly once |
| FixedTable.Table.Alloc | src/slipstream_engine.c:261-274 | The hinted circular scan takes the lowest free slot of the range, because every slot below the hint is occupied |
| FixedTable.Table.Install | src/slipstream_engine.c:259-283 | -ENXIO, -EBADF, -EBUSY and -ENFILE exactly when due; otherwise one slot holds the descriptor and no other changed |
| FixedTable.Table.Clear | src/slipstream_engine.c:285-290 | The slot is emptied and the hint keeps its promise, or -EBADF |
| FixedTable.Table.Lookup | src/slipstream_engine.c:254-257 | The descriptor in the slot, or -EBADF outside the table or empty |
| FixedTable.Table.Register | src/slipstream_engine.c:579-599 | A table of empty slots, whole range; -EINVAL or -EBUSY exactly when due |
| FixedTable.Table.Unregister | src/slipstream_engine.c:600-609 | Every descriptor held is closed once, in slot order |
| FixedTable.Table.SetAllocRange | src/slipstream_engine.c:610-621 | The range is taken over exactly when it lies in the table |
| FixedTable.AllocLeast | src/slipstream_engine.c:261-274 | ALLOC answers the least free slot of the range, and -ENFILE if and only if there is none |
| FixedTable.InstallThenClear | src/slipstream_engine.c:259-290 | A successful install fills a slot that was free and no other, and clearing it restores the table; a failed one changes nothing |
| FixedTable.IndexNamesNone | src/slipstream_engine.c:275-276 | -EBADF exactly for index 0, which wraps past every table, and an index past this one |
| FixedTable.RangeExact | src/slipstream_engine.c:610-621 | The range becomes the one ALLOC looks in if and only if there is a table and it lies in it; no slot changes; -ENXIO without a table, -EINVAL otherwise |
| FixedTable.OpenFdsExact | src/slipstream_engine.c:600-604 | What unregistering closes is every descriptor in the table, as often as it is there, and nothing else |
| FixedTable.OpenFdsConcat | src/slipstream_engine.c:600-604 | And in the order of the slots |
| Multishot.Group.Take | src/engine_posix.c:49-61 | The next entry in ring order, or -ENOBUFS exactly when the caller put up nothing more |
| Multishot.Group.Unget | src/engine_posix.c:68-71 | The head goes back one step, on 16 bits |
| Multishot.Group.RunRecvMany | src/engine_posix.c:272-305 | The loop answers and moves the head as RecvManyKeeps and RecvManyTells describe |
| Multishot.Group.RunRecvOnce | src/engine_posix.c:563-590 | A buffer goes with the answer exactly when bytes came; otherwise it goes back |
| Multishot.Group.RunRecvMsgMany | src/engine_posix.c:331-405 | The recvmsg loop, as RecvMsgManyKeeps and MsgManyTells describe it |
| Multishot.RecvManyKeeps | src/engine_posix.c:272-305 | Answers with F_MORE, then at most one without; the head moves past exactly the buffers that went out, in ring order, never past the caller's tail |
| Multishot.RecvOnceKeeps | src/engine_posix.c:563-590 | The same for a single recv |
| Multishot.RecvMsgManyKeeps | src/engine_posix.c:331-405 | The same for multishot recvmsg |
| Multishot.RecvManyTells | src/engine_posix.c:291-303 | Each F_MORE answer is what the socket gave, in order; the ending one is exactly -ENOBUFS for an empty ring, the socket's error, or 0 at the end of the stream, and an attempt that parked met nothing more to receive |
| Multishot.MsgManyTells | src/engine_posix.c:377-403 | The same for recvmsg, header and reserved sizes included; -EFAULT exactly for a buffer without room for the header |
| Multishot.RecvMsgRefused | src/engine_posix.c:337-343 | A recvmsg without its msghdr answers -EFAULT and one without a provided buffer -EOPNOTSUPP, and no buffer is touched |
| Multishot.RecvOnceTells | src/engine_posix.c:563-590 | A single recv: -ENOBUFS on an empty ring, else what the socket gave, with the buffer exactly when bytes came into one |
| Multishot.EndOfStream | src/engine_posix.c:291-399 | Whatever the socket gives, the answer that ends a multishot recv carries no buffer, and the one that ends a recvmsg carries one exactly at the end of the stream |
| Multishot.RingOrder | src/engine_posix.c:55-59 | Buffer ids follow the slots round the ring, across the wrap of the 16-bit head |
| Multishot.LifeGrammar | src/engine_posix.c:1032-1055 | Across parks and retries an op answers any number of times with F_MORE, then at most once without, and nothing after |
| Multishot.HeadCountsBuffers | src/engine_posix.c:49-71 | Over any attempts at a group, by any ops, the head advances by the number of answers that carried a buffer, modulo 2^16 |
| Multishot.RunAcceptMany | src/engine_posix.c:249-270 | The accept loop on the ring's own table, with the outcome of the accept lemmas |
| Multishot.AcceptGrammar | src/engine_posix.c:249-270 | The same grammar for multishot accept |
| Multishot.AcceptTells | src/engine_posix.c:249-270 | A multishot accept ends exactly at the first refusal, with its errno, or at the first connection without a place in the table, and parks exactly when there is nothing more to accept |
| Multishot.AcceptPlain | src/engine_posix.c:263-268 | Without a file index every accepted descriptor is answered, in order, none kept or closed |
| Multishot.AcceptKeepsCount | src/engine_posix.c:80-87 | With one, every accepted descriptor is in the table or was closed, exactly once |
| Multishot.AcceptSlots | src/engine_posix.c:86-86 | With ALLOC each answer is the slot that holds the descriptor accepted for it |
| Multishot.NamedSlotTakesOne | src/engine_posix.c:80-87 | Whatever arrives, a named slot takes one connection if it is free and none if it is not; the next one is closed and ends the accept with -EBUSY |
| Readiness.SelectArm | src/engine_select.c:31-34 | An op is refused exactly when the sets of every wait it took part in would leave its descriptor out |
| Readiness.SelectSets | src/engine_select.c:49-59 | Each set holds exactly the descriptors some parked op asks about in that direction, those no set can hold passed over |
| Readiness.SelectScan | src/engine_select.c:73-83 | Exactly the parked ops the reported sets wake, in waiting[] order |
| Readiness.ScanCnt | src/engine_select.c:75-83 | The scan selects a parked op if and only if a report wakes it, as often as it is parked |
| Readiness.HandedExact | src/engine_epoll.c:211-222 | An op is handed over by exactly the reports that should wake it if and only if it asks for one side alone |
| Readiness.HandOverIsScan | src/engine_epoll.c:202-222 | Handing over the waiters of the reported descriptors yields each op as often as the full scan does |
| Readiness.HandOverFits | src/engine_epoll.c:216-221 | What is handed over is never more than what is parked, so the pool bound cuts nothing off |
| Readiness.JoinIndexed | src/engine_epoll.c:148-152 | Parking keeps the sides equal to waiting[] divided by descriptor and direction |
| Readiness.LeaveIndexed | src/engine_epoll.c:182-194 | Unparking keeps it too |
| EpollBackend.NoLostWakeup | src/engine_epoll.c:196-233 | An op whose direction is ready and registered is handed over by a level-triggered report |
| EpollBackend.ArmExact | src/engine_epoll.c:135-177 | Arming keeps cache and kernel equal and sufficient if and only if nobody was waiting, or the cache covers the op already, or the kernel does not refuse |
| EpollBackend.RefusalLosesWakeup | src/engine_epoll.c:173-176 | After a refusal with somebody parked, the next park for the other direction takes the first one's direction out of the kernel set |
| EpollBackend.EventExact | src/engine_epoll.c:223-231 | A report keeps it if and only if no waiter wants what is quieted, or the kernel refuses to narrow the registration |
| EpollBackend.EventSane | src/engine_epoll.c:85-94 | For ops that ask for one side quieting never takes a direction somebody waits for |
| EpollBackend.EventQuiets | src/engine_epoll.c:223-231 | A report takes reading off the registration, out-of-band data with it, exactly when nobody waits to read, writing when nobody waits to write, everything on an error with nobody there, and nothing else |
| EpollBackend.ArmAsks | src/engine_epoll.c:135-177 | What is registered is what the op asks for and what others on the descriptor asked for, and nothing left of an earlier user of the number |
| EpollBackend.BothDirectionsLoseOne | src/engine_epoll.c:150-150 | An op asking for both directions is not handed over by a read report and loses that direction |
| EpollBackend.OutOfBandUnheard | src/engine_epoll.c:214-222 | EPOLLPRI changes neither who a report hands over nor what it quiets |
| EpollBackend.SaneAlways | src/engine_epoll.c:135-244 | Over every fair run of arm, disarm, reports, forget and reuse of the number, whoever waits is registered for its direction and the cache is the kernel's |
| EpollBackend.Backend.NoneForgotten | src/engine_epoll.c:196-233 | On the whole table: whoever is parked and has its direction ready is reported and handed over |
| EpollBackend.Backend.Reach | src/engine_epoll.c:58-71 | The table grows by doubling and no descriptor's entry changes |
| EpollBackend.Backend.Park | src/engine_epoll.c:135-177 | arm on the table: one descriptor changes as ArmExact describes, the index is kept, a negative descriptor is refused, and under ArmExact's condition every descriptor stays sane |
| EpollBackend.Backend.Unpark | src/engine_epoll.c:182-194 | disarm on the table: the op leaves its side, the registration stays, every descriptor stays sane |
| EpollBackend.Backend.ForgetFd | src/engine_epoll.c:238-244 | The entry is cleared, nobody being parked on it; every descriptor stays sane |
| EpollBackend.Backend.Reuse | src/engine_epoll.c:139-146 | A descriptor nobody waits on may be closed and its number name another file: any registration, none included, may replace its own; the index and every other descriptor stay, and all stay sane |
| EpollBackend.Backend.HandleReport | src/engine_epoll.c:204-231 | One report: its waiters are collected, its empty sides quieted, every descriptor stays sane |
| EpollBackend.Backend.WaitReady | src/engine_epoll.c:196-233 | A wait hands over every waiter of every reported descriptor, each descriptor is what its reports made of it, and all stay sane |
| KqueueBackend.NoLostWakeup | src/engine_kqueue.c:169-209 | Whoever waits has the knote of its direction and is handed over when it fires |
| KqueueBackend.SaneAlways | src/engine_kqueue.c:104-225 | Over every run, whatever the kernel refuses, a side with waiters has its knote |
| KqueueBackend.ArmSane | src/engine_kqueue.c:104-151 | Arming keeps it, also when EV_ADD fails and the knote is deleted first |
| KqueueBackend.EventSane | src/engine_kqueue.c:200-207 | Deleting a knote that fired with nobody behind it keeps it |
| KqueueBackend.EventDeletes | src/engine_kqueue.c:200-207 | An event with nobody behind it deletes its own knote and no other; one with a waiter deletes none |
| KqueueBackend.ArmAsks | src/engine_kqueue.c:104-151 | Arming leaves the other direction's knote alone; it fails only when both adds are refused, and then the op joins no side and its knote is gone |
| KqueueBackend.Backend.NoneForgotten | src/engine_kqueue.c:169-209 | On the whole table, after any calls: whoever is parked has its knote and is handed over when it fires |
| KqueueBackend.Backend.Park | src/engine_kqueue.c:104-151 | arm on the table: one descriptor changes, the index is kept, every waiter of every descriptor keeps or gets its knote whatever the kernel refuses |
| KqueueBackend.Backend.Unpark | src/engine_kqueue.c:155-167 | disarm on the table: the op leaves its side, the knote stays |
| KqueueBackend.Backend.ForgetFd | src/engine_kqueue.c:218-225 | The entry is cleared, nobody being parked on it |
| KqueueBackend.Backend.Reuse | src/engine_kqueue.c:113-119 | A descriptor nobody waits on may be closed and its number name another file: any knotes may replace its own, and the index and every other descriptor stay |
| KqueueBackend.Backend.HandleEvent | src/engine_kqueue.c:187-207 | One knote: its side is collected; with nobody there the knote goes |
| KqueueBackend.Backend.WaitReady | src/engine_kqueue.c:169-209 | A wait hands over the waiters of every knote that fired, none cut off, and each descriptor is what its events made of it |
| Dispatch.OpenedInv | src/engine_dispatch.c:174-195 | A ring just opened meets the invariant: nothing parked, queued, answered or knocked |
| Dispatch.InvKept | src/engine_dispatch.c:118-470 | Every action keeps: semaphore, signals owed and the token in hand add up to one if knocked and to none otherwise; something behind the door has knocked; the chain names each descriptor with a hit once; sides are the parked ops; no op is parked, out or answered twice |
| Dispatch.InvAlways | src/engine_dispatch.c:118-470 | The same over every interleaving of handlers, blocking ops, pokes and the waiting submitter |
| Dispatch.HeldIsSpare | src/engine_dispatch.c:304-317 | Whatever the engine's submitter holds comes from the pool and is neither parked, out nor answered: what parking and sending out demand follows from the engine's partition |
| Dispatch.BusyFits | src/engine_dispatch.c:174-195 | Parked, out and answered ops together are no more than the pool |
| Dispatch.NoLostWakeup | src/engine_dispatch.c:118-143 | While a hit or an answer is uncollected exactly one wakeup is stored, owed or in hand |
| Dispatch.NoSurplusWakeup | src/engine_dispatch.c:462-467 | A wait with room for one more answer leaves no wakeup behind |
| Dispatch.NothingDropped | src/engine_dispatch.c:304-317 | The guard against a full done[] never drops a completion |
| Dispatch.CollectEmpties | src/engine_dispatch.c:440-465 | The break for want of room is never taken: the chain is emptied, every waiter of a cleared hit is handed over, the door is shut |
| Dispatch.AnswersHandedOut | src/engine_dispatch.c:429-434 | What a wait hands out and what stays in done[] is what stood there, each answer as often, and it hands out as many as there is room for |
| Dispatch.AnswersConserved | src/engine_dispatch.c:304-434 | Over every interleaving what landed is what the waits handed out and what stands in done[], each answer as often |
| Dispatch.ReportMarks | src/engine_dispatch.c:126-143 | A report marks its own side of its own descriptor and no other |
| Dispatch.Chains.ReportFd | src/engine_dispatch.c:126-143 | The side is marked, the descriptor linked once, the knock made on the transition only |
| Dispatch.Chains.LandOp | src/engine_dispatch.c:304-315 | The answer is stored, one op fewer is out, the knock made on the transition only |
| Dispatch.Chains.KnockLocked | src/engine_dispatch.c:118-122 | A signal is owed exactly when nobody had knocked |
| Dispatch.Chains.WalkChain | src/engine_dispatch.c:440-461 | The index-linked walk: hits cleared, marks and links reset, up to the first descriptor whose waiters do not fit |
| Dispatch.Chains.CollectReady | src/engine_dispatch.c:428-466 | The whole locked section of a wait; what it hands out and what stays in done[] is what stood there |
| InotifyQueue.RoundTrip | src/slipstream_inotify.c:165-212 | A record reads back as it was written, name padding and terminator included, whatever follows it |
| InotifyQueue.QueueRoundTrip | src/slipstream_inotify.c:521-529 | A concatenation of whole records decodes to these records |
| InotifyQueue.Layout | src/slipstream_inotify.c:200-211 | A record's bytes are those of struct inotify_event: four words low byte first, the name, then NULs to the next multiple of 16, at least one; no name is no bytes |
| InotifyQueue.OverflowFitsExact | src/slipstream_inotify.c:177-189 | The overflow record, written without growing the buffer, fits in every state if and only if no record exceeds half the bound |
| InotifyQueue.NamesFit | src/slipstream_inotify.c:165-170 | Records of names up to NAME_MAX are at most 272 bytes |
| InotifyQueue.FitMaximal | src/slipstream_inotify.c:521-529 | What a read takes fits, and one more record would not |
| InotifyQueue.WholeRecords | src/slipstream_inotify.c:521-529 | The lengths read back from the bytes give that prefix |
| InotifyQueue.Instance.GrowTo | src/slipstream_inotify.c:191-199 | The buffer is 4096 times a power of two, holds the need, keeps its bytes |
| InotifyQueue.Instance.PutRecord | src/slipstream_inotify.c:200-211 | The bytes of the queue are those before and the record's |
| InotifyQueue.Instance.EmitRecord | src/slipstream_inotify.c:172-212 | Queued, or lost with one overflow record for a run of losses, within bound and buffer |
| InotifyQueue.Instance.Read | src/slipstream_inotify.c:509-535 | Whole records from the front, as many as fit, the rest moved up; -EINVAL exactly when not even one fits |
| InotifyQueue.RunDelivers | src/slipstream_inotify.c:165-212 | Over any run of events and reads the bytes read and those still queued decode to exactly what was queued, in order, and two overflow records have an ordinary one between them |
| InotifyQueue.LossIsTold | src/slipstream_inotify.c:177-189 | A record is lost exactly when it does not fit in 2^20 bytes; one loss leaves an overflow record with watch -1 and mask 0x4000, unless one stands last already or the queue is full to the last byte, and then goes untold |
| DirectoryDiff.CompareReplays | src/slipstream_inotify.c:300-347 | Replaying the records of a look, strictly and in order, turns the old name-to-inode map into the new one; a MOVED_FROM is followed at once by its MOVED_TO with the same cookie and inode |
| DirectoryDiff.CompareNumbers | src/slipstream_inotify.c:334-338 | Every move has a cookie of its own, counted on from the last one, on 32 bits |
| DirectoryDiff.CookieIs | src/slipstream_inotify.c:334-334 | The m-th cookie from c is c + m modulo 2^32 |
| DirectoryDiff.CompareTrue | src/slipstream_inotify.c:300-347 | Every record of a look is true of the listings: its name stood in the old or stands in the new one, with its inode, and it says directory exactly when that entry is one; for the coming half of a move, when the one that left is |
| DirectoryDiff.MovesTold | src/slipstream_inotify.c:324-341 | No file is told both as the DELETE of a name that is gone and as the CREATE of one that is new: that is a move |
| DirectoryDiff.StayedTold | src/slipstream_inotify.c:307-318 | A file that kept its name is reported at most once: MODIFY exactly when time or size changed, ATTRIB exactly when only its mode did |
| DirectoryDiff.LookExact | src/slipstream_inotify.c:295-353 | One look reports the whole difference if and only if the directory did not become empty |
| DirectoryDiff.LooksReplay | src/slipstream_inotify.c:295-353 | Over any run of looks, replaying everything reported gives what the watch remembers |
| DirectoryWatch.AllQueued | src/slipstream_inotify.c:216-222 | A watch that asked for everything and a queue with room: the records are queued one by one, in order |
| DirectoryWatch.WantedQueued | src/slipstream_inotify.c:216-222 | A queue with room: the records of the kinds asked for are queued, in order, and nothing else |
| DirectoryWatch.NothingUnasked | src/slipstream_inotify.c:220-221 | Whatever room there is, what is queued behind the rest is an overflow record or of a kind asked for, by its mask bits |
| DirectoryWatch.WireSays | src/slipstream_inotify.c:216-222 | A record carries the watch, the manual's bit of its kind, IN_ISDIR exactly for a directory, the cookie and the name |
| DirectoryWatch.RecordsReplay | src/slipstream_inotify.c:300-347 | Read by the mask bits of inotify(7), a move's halves together by their cookie, the records turn the old names into the new ones |
| DirectoryWatch.LookReads | src/slipstream_inotify.c:295-353 | The same of the bytes a look adds to a queue with room, decoded |
| DirectoryWatch.Watch.EmitMasked | src/slipstream_inotify.c:216-222 | A record is queued exactly when its kind was asked for, and it says what WireSays says |
| DirectoryWatch.Watch.KidByName | src/slipstream_inotify.c:240-245 | The first entry with the name |
| DirectoryWatch.Watch.DirectoryChanged | src/slipstream_inotify.c:295-353 | The three passes over `seen` flags queue exactly the records of the look, nothing that was not asked for, and the watch remembers the new listing; with room and everything asked for, what was queued, read from its bytes, turns the old names into the new ones |

## Left out

- The system calls behind an op, their arguments and structure layouts: an attempt's answer is a
  parameter (finished, would block and whether the backend took it, to be run where blocking is
  allowed), and so is what a socket gives or a directory holds.
- src/engine_iocp.c, the Windows and Linux arms of inotify, signals, temporary files, the system call
  seam and the shim headers: plumbing with little state of their own.
- Liveness: no statement says that a wait ends or that a queue that may run is run.
- Deadlines, memory allocation failure, the slicing of the ring's one block, probe, and the register
  ops other than the fixed table.
- The CQ index is the counter's remainder by the number of entries, not a bit mask; the two agree for
  powers of two. The same holds for the provided-buffer rings.
- A message from a ring to itself is an emission like one from another ring, and is not tied to the
  sender's history.
- Cancelling at the worker's queue drops the lock for each op it takes; it is one atomic step each
  here, and the worker does not move between two of them inside one pass.
- The ops' `cqe_flags` of a single receive or of a recvmsg at end of stream are part of `Multishot`
  and not of the interleaved machine, whose final completions carry no buffer.
- Ops that dispatch hands to GCD, channel buffers, and the sources' own life cycle with its second
  semaphore: `Dispatch` counts such ops as out until they land.
- SlipRing.Ring.PostOp and SlipRing.Ring.EmitCqe: while a method of the class runs the caller does not
  move its head. The functions it is proved against, and the machine its passes are runs of, let it.
- SlipRing.Ring.Close: releases the parked ops from the last to the first and empties the lists as it
  walks them, where the source leaves both to the memset that follows; no list is read in between.
- SlipRing.Ring.WaitOnce: one turn of the wait loop; that turns repeat until enough completions stand
  in the CQ is not modelled.
- The lists of waiters by descriptor are sequences in the backends' models; threading them through
  the parked ops' `next` links, which no other list uses while an op is parked, is not.
- EpollBackend.Backend.WaitReady: out-of-band data alone (EPOLLPRI) and error bits are modelled as
  reported, but the statements about lost wakeups speak of reading and writing.
- KqueueBackend.Backend.WaitReady: the socket error that rides on a write event is not copied to the
  ops.
- EpollBackend.Backend.Park and KqueueBackend.Backend.Park: the kernel's answers are inputs; a table
  that cannot grow is left out.
- DirectoryWatch.Watch.DirectoryChanged: names are distinct within a listing where replay is concerned,
  and partial listings are left out; the watch's mask is the set of kinds asked for.
- InotifyQueue.Instance.EmitRecord: the words are laid out low byte first, as on the machines the
  source is built for.
