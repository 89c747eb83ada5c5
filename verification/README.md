# rsloop, modelled and proved in Dafny

rsloop is an asyncio event loop split across a Python loop thread, a dispatcher
thread and arbitrary producer threads. Its correctness rests on small
hand-written protocols and data structures. This project models those and
proves what they promise, for every input, every interleaving or every run.

Concurrent protocols are step systems over sequentially consistent memory:
each lock section and each atomic operation that another thread can observe is
a step, and `After` or `Follow` gives the state after any list of enabled
steps. Code that updates a structure in place is a class whose methods are
proved against an abstract value. Callbacks, the operating system and other
threads are parameters: items are opaque identities that may schedule others.

| file | what it models | main results |
|---|---|---|
| `ReadyProtocol`, `ReadyGate`, `ReadyOrder`, `ReadyProgress` | the three routes of a ready item to the drain, the `channel_handles` gate, run begin and end | call order per producer, order against loop-thread work, conservation, exact gate counter, over all runs; accepted work runs within a bound, calls end, an ending run returns |
| `ReadyBacklog` | work queued before a run against the run's own work | exactly when the backlog goes first |
| `GenerationMerge` | `PendingReady` and the generation merge on compressed marks | equals the merge on one mark per item; exact placement by running maximum |
| `TurnDiscipline`, `TurnLedger` | the nested drain loop of `run_forever` | one generation and at most 1024 items per quiet turn; exactly when a turn takes another generation; a run that returns has run every generation it took; nothing given to a run is lost or reordered; exactly how it ends |
| `LoopPark` | the wake flag, timer publication and the park of the loop thread | never sleeps on forgotten work; nothing dropped; exactly what is queued while parked |
| `ExecutorPark`, `ExecutorTasks`, `ExecutorProgress`, `ExecutorTurn` | the async runtime: `waiting`/`interrupt_pending` handshake, task queues, slab tokens, batches | no missed wake; queue membership; without new wakes a woken task is polled within a bound; slot safety; exactly when a local task enters a batch |
| `DeadlineHeap` | the indexed four-ary heap | every history of calls is one of a sorted map; stale handles are dead for ever |
| `Timers`, `TimerCallback`, `TimerRuns` | Python timers: FIFO plus heap, collection, concurrent cancellation | one priority queue over every history; the timers that run are due ones, in order; exact tombstone counter; single owner; a cancel prevents the run, and nothing else does |
| `BoundedSlots` | the slots of bounded blocking jobs | limit, submission order, exactly once, progress |
| `NewlineDecoder` | universal newlines over chunks | three replacements equal one automaton; exact condition for chunk invariance |
| `TextReader` | the text stream reader | answers depend only on the whole text and come if it ends; exactly which look they come at; exactly when a read drops text |
| `Wrappers`, `Sequences` | optional values, filtering, numbering and regrouping | shared by the others |

## Results that need a word

**Newline decoding is not chunk invariant for every text.** A text with three
carriage returns directly before a line feed, cut before that line feed, is
decoded to one line feed too many (`CutTripleDiffers`). `ChunkInvariance` gives
the exact condition for a cutting, and `EveryCutting` the exact condition for a
text: it is decoded alike under every cutting if and only if it has no such
triple.

**Marks can decrease along the queue.** The dispatcher reads its mark before it
takes the queue lock, so placement in a generation is stated with the running
maximum of the marks (`MergePlacement`).

**A comment claims more than the code does.** src/engine/commands.rs:204-206
says that work queued before a run goes ahead of all of the run's own work. The
loop thread may start a generation from its own queue before the dispatcher has
handled `EnterRun`; `OwnWorkRunsFirst` is such a run. It may do so even after the
backlog was forwarded, because the ready flag is raised after the queue lock is
dropped (src/engine/dispatcher.rs:580-590); `OwnWorkRunsFirstAfterForward` is that
run. `BacklogFirstExactly` gives the condition for every run of the system: the
backlog goes first if and only if no generation with a nonempty local queue is
started from that queue alone before the backlog is taken, or from both queues
before it is forwarded.

**A turn of a stopping loop may take another generation.** When a Stop has run,
the budget of 1024 items is reset instead of ending the turn, and with it the
count that keeps a turn to one generation. `OneGeneration` gives the exact
condition for turns with no stop pending or requested: a Stop among the first
1024 items of the generation, a size that is a multiple of 1024, no item that
throws, and something queued behind it. `SecondGeneration` is such a turn.

**The park does not mean empty queues.** While the loop thread is blocked its own
queue can hold an item: a producer has set the ready flag and not woken yet, and
a reactor task that queues an item then leaves the wake to that producer
(`BlockedWithLocalWork`). `ParkedOnlyOnAnnouncedWork` says what holds in every
reachable state of the park, and `ParkedLocalExactly` that the queue is empty
there exactly if no reactor task has queued anything since the park was entered.

**Remote wakes can starve the local queue.** A batch takes the fast slot, then
the remote queue, then the local queue, 256 tasks in all. If 256 live tasks are
woken from other threads before every turn, no local task ever enters a batch
(`RemoteWakesStarveLocal`). `EntersThisTurn` and `EntersExactly` say when the task
at a position of the local queue enters one, for one turn and for any turns;
`LocalQueueFairness` is the bound without remote wakes. Likewise the poll of a
woken task is bounded as long as there are no new wakes (`SparedAtMost`).

**Reading to end of file can drop text.** `read` with a negative size collects
blocks; if an exception ends it, or it waits for ever, the blocks it took are in
nobody's hands. `LosesText` is the exact condition on what the reader sees and
what will happen to it, and `FailureLosesText` the example. Everything taken and
everything still in the buffer is what was fed, in every case.

**The offset of an overrun depends on the feeds.** Whether `readuntil` overruns
its limit does not, but the offset it reports does (`OverrunOffsetsDiffer`).
`DecidedAtLook` says which offset it is.

## Model

| member | source | states |
|---|---|---|
| `ReadyOrder.EveryRun` | src/engine/loop_core.rs:515-554 | Over every interleaving and any number of runs: a producer's handles run in call order with none skipped, an off-thread item runs after every loop-thread item noted before its birth, every accepted item is executed once or sits in exactly one place, and `channel_handles` is exact |
| `ReadyProgress.EverythingRuns` | src/engine/dispatcher.rs:571-592 | From every reachable state of a run under way a list of dispatcher and loop-thread steps, bounded by what is queued, with no new work and without ending the run, executes everything accepted |
| `ReadyProgress.GoesOnAtMost` | src/engine/dispatcher.rs:302-353 | Whatever dispatcher and loop thread do, they take no more than that many steps that change anything before all of it has run |
| `ReadyProgress.OnwardNearer` | src/engine/loop_core.rs:892-905 | Each such step changes nothing at all or brings the end nearer |
| `ReadyProgress.EndingRunReturns` | src/engine/loop_core.rs:1204-1255 | From every reachable state in which a run is ending a bounded list of loop-thread and dispatcher steps returns from it, with nothing executed or accepted on the way |
| `ReadyProgress.EveryCallAccepted` | src/engine/loop_core.rs:2037-2058 | There are exactly as many accepted items as scheduling calls that have ended and items the loop thread queued itself |
| `ReadyProgress.CallEnds` | src/engine/loop_core.rs:515-554 | A scheduling call ends within four steps of its own, whatever the others do |
| `ReadyProgress.AcceptsExactly` | src/engine/dispatcher.rs:340-350 | Direct enqueues are accepted exactly from the end of the EnterRun to the retirement of the run |
| `ReadyProgress.DirectExactly` | src/engine/loop_core.rs:515-548 | A handle call takes the short way, to the end of the run's queue, exactly if no handle is counted and the run accepts |
| `ReadyOrder.EveryRunKeepsInvariant` | src/engine/loop_core.rs:2005-2098 | The joint invariant (gate, line order, no overtaking, births, stamps, conservation) holds after every list of enabled steps |
| `ReadyOrder.InvariantCall` | src/engine/loop_core.rs:2037-2058 | Probing, direct enqueue, reserving and sending keep the joint invariant |
| `ReadyOrder.InvariantDispatcher` | src/engine/dispatcher.rs:571-613 | Receiving, forwarding, releasing, activating and finishing keep the joint invariant |
| `ReadyOrder.InvariantLoop` | src/engine/loop_core.rs:892-905 | Run begin, local enqueue, generation merge, execution and every part of run end keep the joint invariant |
| `ReadyOrder.FifoSaveLeftovers` | src/engine/loop_core.rs:1204-1224 | Putting the unexecuted batch and the next generation back in front keeps each producer's handles in call order |
| `ReadyOrder.ConservedSaveLeftovers` | src/engine/loop_core.rs:1204-1224 | A run that ends in the middle of a batch loses and repeats nothing |
| `ReadyOrder.MergeNoOvertake` | src/engine/loop_core.rs:2110-2146 | In a merged generation no off-thread item precedes a local item numbered below its birth |
| `ReadyBacklog.OvertakenExactly` | src/engine/loop_core.rs:874-905 | For every run of the system, every beginning of a loop run in it and every item queued by then: a loop-thread item enqueued since is ahead of it exactly if a later step bypassed it |
| `ReadyBacklog.BacklogFirstExactly` | src/engine/commands.rs:204-206 | The whole backlog goes ahead of all of the run's own work if and only if no generation with a nonempty local queue is started while some of it is out of reach |
| `ReadyBacklog.OwnWorkRunsFirst` | src/engine/commands.rs:204-206 | A run of the system in which the run's own item is executed before a handle sent before the run |
| `ReadyBacklog.OwnWorkRunsFirstAfterForward` | src/engine/dispatcher.rs:571-592 | The same after the handle was forwarded into the run's queue |
| `ReadyBacklog.MergeKeepsAhead` | src/engine/loop_core.rs:2110-2146 | A merge puts no local item ahead of a pending item whose marks have been reached |
| `ReadyGate.GatedStep` | src/engine/dispatcher.rs:302-353 | Every step keeps the run hand-over, the counter and the gate: a producer allowed to enqueue directly has nothing of its own still arriving |
| `ReadyGate.CountedCall` | src/engine/loop_core.rs:515-548 | Producer steps keep `channel_handles` equal to handles arriving, forwarded but unreleased, or between increment and send |
| `ReadyGate.CountedDispatcher` | src/engine/dispatcher.rs:571-592 | Dispatcher steps keep that count, taking a finished run's queue back included |
| `ReadyGate.GateCall` | src/engine/loop_core.rs:515-548 | A producer reaches the direct enqueue only when none of its handles is on the channel or in the uncounted batch |
| `ReadyGate.ControlDispatcher` | src/engine/dispatcher.rs:307-353 | EnterRun, FinishRun and activation match the loop thread's progress; direct enqueues are accepted only after the backlog was forwarded |
| `GenerationMerge.MergeReadyGeneration` | src/engine/loop_core.rs:2110-2146 | The drain by segments yields the merge of one mark per item, empties both queues and advances `local_taken` by the local length |
| `GenerationMerge.MergeOne` | src/engine/loop_core.rs:2130-2142 | One pass of the segment loop keeps the batch so far plus the merge of the rest equal to the whole merge |
| `GenerationMerge.MergePlacement` | src/engine/loop_core.rs:2100-2108 | Each pending item stands behind exactly min(local length, running maximum of marks minus `local_taken`, at least 0) local items, and the batch up to it is the merge of those |
| `GenerationMerge.MergeConserves` | src/engine/loop_core.rs:2100-2108 | The batch holds every local and every pending item exactly once |
| `GenerationMerge.MergeFilterPending` | src/engine/loop_core.rs:2104-2106 | The pending items keep their order |
| `GenerationMerge.MergeFilterLocal` | src/engine/loop_core.rs:2104-2106 | The local items keep their order |
| `GenerationMerge.MergeSegment` | src/engine/loop_core.rs:2130-2142 | Merging a segment of one mark: the locals due, then the segment, then the merge of the rest |
| `GenerationMerge.PendingReady.Push` | src/engine/commands.rs:124-128 | Appends one item with its mark to the uncompressed contents and keeps the compression valid, on a queue refilled with leftovers too |
| `GenerationMerge.PendingReady.Extend` | src/engine/commands.rs:132-141 | Appends all items under one mark, on a queue refilled with leftovers too; an empty extend changes nothing |
| `GenerationMerge.PendingReady.TakeItems` | src/engine/commands.rs:144-147 | Takes every item and leaves no mark |
| `GenerationMerge.PendingReady.PutBack` | src/engine/loop_core.rs:1204-1224 | The leftovers of a run become the whole queue, ahead of every mark to come |
| `GenerationMerge.MarksExtended` | src/engine/commands.rs:151-159 | Appending under a mark keeps old marks, gives new indices the mark, and keeps the list compressed |
| `TurnDiscipline.QuietTurn` | src/engine/loop_core.rs:870-1080 | With no stop pending, in effect or requested and no Stop in the generation a turn starts with, it runs at most 1024 items of that generation and nothing else, all of it or exactly 1024 if it finishes |
| `TurnDiscipline.OneGeneration` | src/engine/loop_core.rs:1070-1080 | With no stop pending or requested a turn stays in one generation except exactly when a Stop is within the first 1024 of a multiple of 1024 items that all run and more is queued; a turn that finishes after such a Stop ran the whole generation |
| `TurnDiscipline.SecondGeneration` | src/engine/loop_core.rs:1070-1080 | A turn that takes a second generation |
| `TurnDiscipline.StopsShow` | src/engine/loop_core.rs:915-919 | Stopping means that a Stop ran, and then a turn ends normally only with an empty batch |
| `TurnDiscipline.TurnAccounts` | src/engine/loop_core.rs:870-1080 | However a turn goes and whatever the stop flags are, what ran and what is left of the batch are the batch it found and every generation it took, in order |
| `TurnDiscipline.RunAccounts` | src/engine/loop_core.rs:858-1097 | The same for a whole run of any turns |
| `TurnDiscipline.RunStops` | src/engine/loop_core.rs:915-919 | A run is stopping exactly if a Stop ran, and if it returns it is and its batch is empty |
| `TurnDiscipline.ReturningRun` | src/engine/loop_core.rs:1088-1097 | A run that returns has run a Stop and every item of every generation it took, in order, the one holding that Stop included |
| `TurnLedger.TurnTakes` | src/engine/loop_core.rs:892-905 | However a turn goes, each generation is the merge of what was then queued: local queue and scheduled items leave in order, so do the off-thread queue and what is pushed, and the rest is still queued |
| `TurnLedger.RunTakes` | src/engine/loop_core.rs:858-1097 | The same over a whole run, with timers and what comes between turns |
| `TurnLedger.TurnConserves` | src/engine/loop_core.rs:870-1080 | What ran in a turn and what is queued after it are exactly what was queued before it and what was scheduled and pushed during it |
| `TurnLedger.RunConserves` | src/engine/loop_core.rs:858-1097 | The same for a whole run |
| `TurnLedger.FailsExactly` | src/engine/loop_core.rs:921-951 | A turn fails exactly at the first callback that raises |
| `TurnLedger.StopPendingExactly` | src/engine/loop_core.rs:915-919 | A stop is pending after a turn exactly if it was asked for and no Stop has run since |
| `TurnLedger.StopCarried` | src/engine/loop_core.rs:1099-1105 | The next turn starts with a stop pending exactly if one was, one came between the turns, or the first signal error did |
| `TurnLedger.PendingStopGoesOn` | src/engine/loop_core.rs:874-890 | A turn finishes with a stop pending only if its budget is spent or nothing is queued for it |
| `TurnLedger.RunEndsExactly` | src/engine/loop_core.rs:1088-1105 | A run raises if its last turn failed, raises or returns if that turn finished stopping, by whether a signal error came before, and is otherwise still running |
| `TurnLedger.NoErrorsNoRaise` | src/engine/loop_core.rs:1088-1097 | Without a raising callback or a signal error no run raises |
| `TurnDiscipline.Drain.Turn` | src/engine/loop_core.rs:870-1080 | The nested drain loop runs, leaves and ends as the script function these results are about |
| `TurnDiscipline.Drain.Run` | src/engine/loop_core.rs:858-1097 | A run executes, leaves and ends as the run function these results are about says of its script |
| `TurnDiscipline.Drain.Refill` | src/engine/loop_core.rs:874-912 | A new generation is taken in a turn only if nothing ran yet or a stop is pending |
| `TurnDiscipline.Drain.FormGeneration` | src/engine/loop_core.rs:892-905 | The generation is the merge of both queues, or the local queue when the flag is not seen; what stays queued and the count of local items taken are as after that |
| `TurnDiscipline.Drain.ExecuteFront` | src/engine/loop_core.rs:914-945 | Runs the front item; what it and other threads scheduled is queued, and a Stop clears the request and starts stopping, as the step function says that conservation and the stop flag are proved of |
| `LoopPark.NeverSleepsOnForgottenWork` | src/engine/loop_core.rs:1107-1191 | In every reachable state where the loop thread is blocked and not notified, every item pushed, collected or scheduled and not executed, every dirty flag and every timer not yet in the run's own heap has a producer still to signal or wake |
| `LoopPark.NothingDropped` | src/engine/loop_core.rs:870-912 | Batch, local and off-thread queue hold exactly what the run was given and has not executed, and both timer heaps exactly the timers scheduled and not collected |
| `LoopPark.NotifiedParkDrains` | src/engine/loop_core.rs:105-181 | A notified park with the flag set is back in the drain within four steps of its own |
| `LoopPark.ParkedOnlyOnAnnouncedWork` | src/engine/loop_core.rs:1118-1191 | In every reachable state of the park the batch is empty and an item in the local queue came with a set flag; once the park can sleep it is notified, or a wake is under way |
| `LoopPark.ParkedLocalExactly` | src/engine/loop_core.rs:1118-1191 | In the park the loop thread's own queue holds exactly what reactor tasks have queued since the park was entered |
| `LoopPark.BlockedWithLocalWork` | src/engine/loop_core.rs:2007-2030 | A run that blocks the loop thread with an item in its own queue, a producer's wake still to come |
| `LoopPark.WakeReachesPark` | src/engine/loop_core.rs:105-181 | The wake of a producer that set the flag reaches the registered park |
| `LoopPark.InvariantAfter` | src/engine/loop_core.rs:735-776 | The park invariant holds after every interleaving of pushes, dirty marks, flag clears, registrations and signals |
| `ExecutorPark.NoMissedWake` | src/vibeio/executor.rs:939-998 | No reachable state has the runtime blocked with a root notified and not polled since or a task pushed and not popped, no interrupt outstanding and no waker on its way to one; nor with work of its own. What is owed is read off the run alone |
| `ExecutorPark.OwedIsPublished` | src/vibeio/executor.rs:939-998 | The root flag, the remote queue and the local queues hold exactly what was notified, pushed and woken and not taken since |
| `ExecutorPark.HelpServes` | src/vibeio/executor.rs:958-998 | After at most three steps of wakers and four of its own such a runtime polls its root again, with every pushed task still queued |
| `ExecutorPark.HelpArrives` | src/vibeio/executor.rs:282-301 | From such a state at most three steps of wakers already under way deliver the interrupt |
| `ExecutorPark.InvariantFollow` | src/vibeio/task.rs:76-95 | The handshake invariant holds after every interleaving, wakers left over from an earlier park included |
| `ExecutorPark.KeepsHelp` | src/vibeio/task.rs:82-95 | A waker's step keeps an interrupt outstanding or a waker on its way to one |
| `ExecutorPark.KeepsInterrupt` | src/vibeio/executor.rs:292-301 | A set `interrupt_pending` means a token or an interrupt under way |
| `ExecutorTasks.QueueMembership` | src/vibeio/executor.rs:52-85 | A task is at most once in the three queues; a live task with its flag set is queued, held by the drain or about to be pushed; a live task woken, by the run's account, and not polled since is there or in the batch |
| `ExecutorProgress.EveryWakeIsPolled` | src/vibeio/executor.rs:638-666 | From every reachable state in which a live task was woken and not polled since, the push still to come and then the runtime's own steps, collecting slot, remote and local tasks batch by batch, end with its poll, within a bound that counts everything queued ahead |
| `ExecutorProgress.PollServes` | src/vibeio/executor.rs:576-605 | A poll that reaches a live task runs its future, or takes the task out of the slab if the future was dropped |
| `ExecutorProgress.RuntimeLeadsToPoll` | src/vibeio/executor.rs:576-605 | The same from every state that keeps the invariant and in which the task is queued |
| `ExecutorProgress.SparedAtMost` | src/vibeio/executor.rs:918-1019 | However the runtime and the wakes under way go on, as long as there are no new wakes a queued woken live task is polled, or completes, within that bound |
| `ExecutorProgress.OnwardNearer` | src/vibeio/executor.rs:929-937 | Each such step polls the task, completes it or brings its poll nearer, in every phase of the collection |
| `ExecutorProgress.RuntimeGoesOn` | src/vibeio/executor.rs:918-1019 | The runtime thread always has a next step |
| `ExecutorProgress.EndingEnds` | src/vibeio/executor.rs:124-155 | The exception: a task that cancelled itself in the poll under way can only end with it |
| `ExecutorProgress.NeverOvertaken` | src/vibeio/executor.rs:638-666 | In every continuation what is ahead of a task in the batch or a queue never grows and each poll or pop makes it one less |
| `ExecutorProgress.NeverDropped` | src/vibeio/executor.rs:52-85 | A live task about to be pushed, in the fast slot or in the drain's hand stays until it moves to the next place |
| `ExecutorTasks.SlotSafety` | src/vibeio/executor.rs:576-605 | A token is freed at most once and exactly when the task leaves the slab; a task that has or runs its future owns its slot; a cancelled one keeps a place from which its slot is reclaimed |
| `ExecutorTasks.CancelledNeverPolled` | src/vibeio/executor.rs:186-202 | After a cancel no poll of the task begins any more |
| `ExecutorTasks.DroppedNeverPolled` | src/vibeio/executor.rs:186-199 | If the cancel found the future in its slot, the task is never under poll again |
| `ExecutorTasks.DueExactly` | src/vibeio/task.rs:76-95 | The record of woken tasks is exactly who was spawned or woken and not reached by a poll since |
| `ExecutorTasks.FreesOnlyOwnSlot` | src/vibeio/executor.rs:124-155 | A step frees exactly the token of the task whose poll ends, or of the live task with a dropped future it polls, and no other: a dead shell never frees a reused slot |
| `ExecutorTasks.InvariantAfter` | src/vibeio/executor.rs:186-202 | Membership, memory of wakes, slot ownership and the collection phases hold after every run of spawn, wake, collection, poll, completion and cancel |
| `ExecutorTasks.MarkDequeuedStep` | src/vibeio/executor.rs:638-666 | Clearing the flag of the task in hand, which moves it into the batch, keeps all of it |
| `ExecutorTasks.CancelDropStep` | src/vibeio/executor.rs:186-199 | Marking a task cancelled and dropping its future, from outside or within its own poll, keeps all of it; user code may run before the wake |
| `ExecutorTasks.CancelWakeStep` | src/vibeio/executor.rs:200 | The wake of a cancel keeps all of it |
| `ExecutorTurn.ReadyQueues.CollectBatch` | src/vibeio/executor.rs:929-937 | The batch is the fast slot, then live remote tasks, then local tasks, within 256 |
| `ExecutorTurn.ReadyQueues.DrainReadyWith` | src/vibeio/executor.rs:638-666 | Pops exactly what the budget reaches, stale remote entries for free, local tasks in order |
| `ExecutorTurn.FromRemoteIsExact` | src/vibeio/executor.rs:640-657 | The tasks taken from the remote queue are exactly the live ones popped, in order, and popping stops only at an empty queue or right behind the task that spends the budget |
| `ExecutorTurn.ReadyQueues.TakeTurns` | src/vibeio/executor.rs:840-857 | Over any turns, remote wakes included, the tasks leaving the local queue are those the results below speak of |
| `ExecutorTurn.EntersThisTurn` | src/vibeio/executor.rs:929-937 | The task at position p of the local queue enters this turn's batch exactly if the slot, the live remote tasks taken and p add up to less than 256 |
| `ExecutorTurn.EntersExactly` | src/vibeio/executor.rs:638-666 | Over any turns it has entered a batch exactly if the room that slots and remote tasks leave over those turns exceeds p, and then behind exactly the tasks ahead of it |
| `ExecutorTurn.RemoteWakesStarveLocal` | src/vibeio/executor.rs:638-666 | With 256 live remote wakes before every turn no local task enters a batch in any number of turns |
| `ExecutorTurn.LocalQueueFairness` | src/vibeio/executor.rs:632-666 | Without remote wakes the task at position p enters a batch within p/255 + 1 turns, behind exactly the tasks ahead of it, however often the fast slot is filled |
| `DeadlineHeap.DeadlineHeap.constructor` | src/vibeio/timer.rs:35-41 | Starts with no timers and a valid heap |
| `DeadlineHeap.DeadlineHeap.SwapNodes` | src/vibeio/timer.rs:53-57 | Swaps two heap places and their back pointers and no timer changes |
| `DeadlineHeap.DeadlineHeap.SiftUp` | src/vibeio/timer.rs:60-69 | Restores heap order from a hole that may be too small, keeping the timers |
| `DeadlineHeap.DeadlineHeap.SiftDown` | src/vibeio/timer.rs:72-91 | Restores heap order from a hole that may be too large, keeping the timers |
| `DeadlineHeap.DeadlineHeap.Insert` | src/vibeio/timer.rs:95-114 | Adds one timer under a fresh handle |
| `DeadlineHeap.DeadlineHeap.Deadline` | src/vibeio/timer.rs:118-120 | The deadline of the least timer, none exactly when empty |
| `DeadlineHeap.DeadlineHeap.Remove` | src/vibeio/timer.rs:123-146 | Removes the timer of a live handle and returns its waker; a stale handle changes nothing |
| `DeadlineHeap.DeadlineHeap.PopExpired` | src/vibeio/timer.rs:150-163 | Appends the wakers of the due timers in order and keeps exactly the others |
| `DeadlineHeap.DeadlineHeap.UpdateWaker` | src/vibeio/timer.rs:216-247 | Replaces the waker of a live handle only |
| `DeadlineHeap.DeadlineHeap.Replay` | src/vibeio/timer.rs:45-163 | Every history of register, cancel, expire and re-wake is answered as a sorted map would, with the same final contents |
| `DeadlineHeap.DueIsExact` | src/vibeio/timer.rs:150-163 | The due list is strictly ascending by (deadline, insertion) and is exactly the timers whose deadline has passed |
| `DeadlineHeap.StaleForever` | src/vibeio/timer.rs:123-131 | A handle that is not live stays so through every later history, slot reuse included |
| `Timers.Compare` | src/engine/timer_entry.rs:11-23 | The reversed comparison is a total order: greater exactly if earlier by (deadline, id) |
| `Timers.SortedIsUnique` | src/engine/timer_entry.rs:18-22 | A sorted sequence of timers is determined by its members, so pop order is well defined |
| `Timers.RemovalKeepsOrder` | src/engine/timer_entry.rs:56-73 | Taking the cancelled entries out leaves the pop order of the others |
| `Timers.TimerQueue.Push` | src/engine/timer_entry.rs:76-84 | One push on either path adds the entry and keeps the FIFO part sorted |
| `Timers.TimerQueue.Peek` | src/engine/timer_entry.rs:87-93 | The least entry of both parts |
| `Timers.TimerQueue.Pop` | src/engine/timer_entry.rs:96-102 | Pops the first entry of the whole queue in order and leaves the rest in order |
| `Timers.TimerQueue.AppendHeap` | src/engine/timer_entry.rs:105-107 | Takes every entry of the shared heap in |
| `Timers.TimerQueue.DrainInto` | src/engine/timer_entry.rs:110-113 | Gives every entry to the shared heap |
| `Timers.TimerQueue.CompactCancelled` | src/engine/timer_entry.rs:60-73 | Moves each entry that looks cancelled out once; the live ones keep their pop order |
| `Timers.TimerQueue.Replay` | src/engine/timer_entry.rs:40-114 | Every history of pushes on either path, pops, merges, drains and compactions is answered as one priority queue answers it |
| `Timers.LocalTimers.Collect` | src/engine/loop_core.rs:226-259 | Nothing is lost, no entry at or before the clock value remains, and the handed-over timers that do not look cancelled are exactly the live due ones in (deadline, id) order |
| `Timers.LocalTimers.CollectDue` | src/engine/loop_core.rs:245-258 | The loop pops in ascending order and stops with nothing due left |
| `Timers.LocalTimers.Deadline` | src/engine/loop_core.rs:262-268 | The park lasts no longer than to the next deadline or the signal interval, whichever is first |
| `Timers.LocalTimers.Compact` | src/engine/loop_core.rs:236-243 | Compacts exactly when the counter exceeds 100 and half of the entries |
| `Timers.LocalTimers.Return` | src/engine/loop_core.rs:275-289 | At the end of a run every timer goes back to the shared heap, marked dirty if there was any |
| `TimerCallback.CounterIsExact` | src/engine/callbacks.rs:524-551 | Under every interleaving the counter is the number of counted timers; with no critical section under way, of timers queued and cancelled |
| `TimerCallback.SingleOwnerAndNoLateRun` | src/engine/callbacks.rs:524-563 | A payload goes to at most one of canceller and invoker; a drained timer fails to run only if cancelled; one that looked cancelled when it left the queue never runs, due or not, even in the middle of its cancel |
| `TimerCallback.CancelPreventsRun` | src/engine/callbacks.rs:524-540 | Once a cancel has locked the timer of a Python handle and the lock has been free again before the timer ran, the canceller has the payload and the timer never runs |
| `TimerCallback.SharedCancelPreventsRun` | src/engine/callbacks.rs:514-517 | A shared timer cancelled before it ran never runs |
| `TimerCallback.OnlyCancelPreventsRun` | src/engine/callbacks.rs:557-563 | A timer that nobody began to cancel keeps its payload until it runs, and runs when it is invoked |
| `TimerCallback.LookedExactly` | src/engine/callbacks.rs:514-517 | The record of timers that left the queue looking cancelled is exact |
| `TimerRuns.TimersRunInOrder` | src/engine/loop_core.rs:943-951 | Of the timers a collection handed over, those that run are due ones in (deadline, id) order, however cancels, invocations and drops interleave |
| `TimerRuns.RunOrder` | src/engine/loop_core.rs:226-259 | The same for any selection of timers that leaves out those that looked cancelled |
| `TimerCallback.InvariantAfter` | src/engine/callbacks.rs:469-577 | Counter and per-timer soundness hold after every list of lock, swap, count, take, dequeue, invoke and drop steps |
| `BoundedSlots.EveryRun` | src/blocking.rs:65-91 | In every interleaving `running` is the number of slots held and within the limit, jobs wait only when all are taken, slots go out in submission order, and each job is granted, held and ended at most once, panics included |
| `BoundedSlots.LimitIs` | src/blocking.rs:33-53 | The limit is four more than the usable processors, and 32 from 28 on |
| `BoundedSlots.WaitingJobsGetSlots` | src/blocking.rs:76-91 | After any run with more than i ends the job at place i of the queue has a slot |
| `BoundedSlots.AllJobsRun` | src/blocking.rs:48-91 | Once every granted job has ended, every submitted job was granted and has ended |
| `NewlineDecoder.TranslateIsScan` | python/rsloop/_loop_compat.py:943-945 | The three replacements compute what one pass counting carriage returns computes |
| `NewlineDecoder.TextNewlineDecoder.Decode` | python/rsloop/_loop_compat.py:925-941 | A call writes what the automaton writes for the held carriage returns and the chunk, holding back at most two of an open run |
| `NewlineDecoder.DecodeAll` | python/rsloop/_loop_compat.py:918-941 | A fresh decoder fed chunk by chunk and flushed writes the stream the theorems speak of |
| `NewlineDecoder.ChunkInvariance` | python/rsloop/_loop_compat.py:925-945 | A cutting is decoded to the translation of the whole text if and only if no chunk starts with a line feed cut from three or more carriage returns; each such cut costs one line feed |
| `NewlineDecoder.EveryCutting` | python/rsloop/_loop_compat.py:925-945 | A text is decoded alike under every cutting if and only if it has no three carriage returns directly before a line feed |
| `NewlineDecoder.CutTripleDiffers` | python/rsloop/_loop_compat.py:931-941 | The smallest cutting that shows it |
| `TextReader.Find` | python/rsloop/_loop_compat.py:821-823 | The first occurrence at or after the offset |
| `TextReader.TextStreamReader.ReadUntil` | python/rsloop/_loop_compat.py:804-847 | Text through the leftmost separator, the incomplete rest, or an overrun beyond which no separator was passed over, decided by the whole text alone; one of these if nothing fails and the text ends; it raises only a set exception and blocks only if nothing more happens; only what is answered leaves the buffer |
| `TextReader.TextStreamReader.Search` | python/rsloop/_loop_compat.py:814-837 | The resumed search finds what a search from the start of the buffer at every look finds: it never skips a separator that spans feeds |
| `TextReader.UntilIgnoresCuts` | python/rsloop/_loop_compat.py:804-847 | Two conclusive answers to the same whole text are the same however it was fed; two overruns may differ in their offset, and no separator starts before either |
| `TextReader.UntilSameText` | python/rsloop/_loop_compat.py:804-847 | Two readers whose text ends without failures and is the same get the same answer however it is fed, up to the offset of an overrun |
| `TextReader.ExactSameText` | python/rsloop/_loop_compat.py:849-871 | The same for `readexactly`, without exception |
| `TextReader.UntilReadConcludes` | python/rsloop/_loop_compat.py:804-847 | If nothing fails and the text ends, `readuntil` concludes; otherwise it raises only a set exception and blocks only when the events are used up |
| `TextReader.ExactReadConcludes` | python/rsloop/_loop_compat.py:849-871 | The same for `readexactly` |
| `TextReader.AwaitedHealthy` | python/rsloop/_loop_compat.py:747-765 | A wait before an end of file that the reader gets to see ends with data |
| `TextReader.FateReturns` | python/rsloop/_loop_compat.py:774-781 | A read to end of file returns if nothing fails and the text ends |
| `TextReader.DecidedAtLook` | python/rsloop/_loop_compat.py:820-843 | The first look with a separator or past the limit decides: the leftmost separator, an overrun at its index if that is past the limit, or an overrun at the last place where one could have started; the reader is left as at that look, without the text it answered |
| `TextReader.NeverDecided` | python/rsloop/_loop_compat.py:826-843 | If no look decides it, the answer is the incomplete rest exactly if the last look is at end of file, and otherwise what ended the last wait |
| `TextReader.ExactAtLook` | python/rsloop/_loop_compat.py:859-871 | For every pipe, open or not: `readexactly` answers at the first look with n characters, with those, and leaves the rest of that look |
| `TextReader.NeverEnough` | python/rsloop/_loop_compat.py:859-871 | If no look has that many, it is incomplete exactly if the last look is at end of file |
| `TextReader.SomeAtLook` | python/rsloop/_loop_compat.py:782-789 | `read` of a positive size answers at the first look with any text or at end of file, with as much of it as the size allows |
| `TextReader.WaitEndsAt` | python/rsloop/_loop_compat.py:747-765 | A wait ends when the reader gets to run after the first event that wakes, with all that was fed, ended or failed by then |
| `TextReader.WaitNeverEnds` | python/rsloop/_loop_compat.py:747-765 | Without such an event it never ends |
| `TextReader.OverrunOffsetsDiffer` | python/rsloop/_loop_compat.py:820-843 | One text fed in two ways overruns at different offsets |
| `TextReader.TextStreamReader.ReadExactly` | python/rsloop/_loop_compat.py:849-871 | The first n characters of the whole text, or all of it at end of file; one of these if nothing fails and the text ends; it raises only a set exception and blocks only if nothing more happens; only what is answered leaves the buffer |
| `TextReader.TextStreamReader.Read` | python/rsloop/_loop_compat.py:767-789 | At most n characters, empty only at end of file; a negative n returns the whole text, throws or hangs as the events say; it returns text if nothing fails and the text ends; taken text and buffer are always all that was fed, and text is taken but not answered if and only if `LosesText` holds before the call |
| `TextReader.FateAwaited` | python/rsloop/_loop_compat.py:747-789 | What the events alone say about the end of a read is what each wait yields |
| `TextReader.FailureLosesText` | python/rsloop/_loop_compat.py:774-781 | The events after which a read to end of file throws with text in hand |
| `TextReader.ReadAllFails` | python/rsloop/_loop_compat.py:774-781 | That read: it raises and has taken text |
| `TextReader.TextStreamReader.WaitForData` | python/rsloop/_loop_compat.py:747-765 | The wait yields what the events say; a wake by data means new text or end of file, and the whole text stays the same |
| `TextReader.TextStreamReader.FeedData` | python/rsloop/_loop_compat.py:704-710 | Text is appended to buffer and history; after end of file it is refused |

## Left out

- Memory below sequential consistency: the fences and orderings are taken at their word.
- PyO3, CPython and callbacks: opaque items that may schedule others.
- I/O drivers, sockets, TLS, transports, subprocesses, signals and descriptor watchers: only a sticky interrupt token is kept.
- Wrap-around of 64-bit counters (generations, marks, callback ids): naturals.
- Clock values and float seconds: integers.
- Closing the loop, failed channel sends, early returns through `?` in `run_forever`, panics while polling and the finish-run timeout: these skip the normal exit path.
- The spin window before a park and its cooldown: tuning only.
- What a run leaves unexecuted is handed back as a whole in the park model (`LoopPark`); `ReadyOrder` follows the items.
- The bounded park of the Apple and Windows drivers and the details of `poll_once` beyond batch and wait: only the wait that can block matters to a missed wake.
- `Timer::submit` and `Timer::spin_and_get_deadline` beyond the heap calls they make, and re-entry from wakers: the heap itself is complete.
- Which vacant slab key is chosen: any vacant key.
- `TimerCallback::cancel` on a timer of the shared Rust interface: Python handles are its only callers, and they own their timers; shared timers are cancelled through their own flag.
- `readline`, and pausing and resuming the transport, of the text reader: `readline` discards text on an overrun by design.
- Incremental byte decoding before newline translation: chunks are taken as text.
- Two coroutines waiting on one text reader: a `RuntimeError` in the source.
- Four self-contained parts that the modelled code only uses: the batch allocator (reuses the memory of a batch), the state snapshot (a mutex with an atomic copy of its flags, read as the flags themselves here), the async event (a broadcast that transports use on shutdown) and the descriptor wrapper (registration and release of one descriptor).
