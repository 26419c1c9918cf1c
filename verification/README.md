# The channel and select protocol of asiochan, modelled and verified

asiochan is a C++ library of typed channels for coroutines.  Its heart is a synchronisation
protocol.  A channel has a mutex, a FIFO list of waiting readers, a FIFO list of waiting writers
and a buffer (none, a ring, or an unbounded queue).  A `select` has one context with a one-way
availability flag; alternative by alternative it looks for a ready partner, or leaves an intrusive
node in the channel's list.  Whoever takes the flag first decides the select.  Nodes of decided
selects stay behind and go stale: peers pop them when they meet them, the owner removes the rest
after it has been resumed.

This project models that protocol on two levels, and the pieces around it.

* **A step machine** (`Protocol`): any number of channels and selects, each with any alternatives;
  a step is one atomic access (one lock of the context mutexes, one claim, one hand-over, one
  `dequeue` of the clean-up), so flags fall between two iterations of the same scan.  A run is any
  sequence of select numbers.  `Invariant` and `Keep*` hold an inductive invariant; `Runs`, `Fifo`,
  `Conservation`, `Progress`, `Ready` draw the consequences for all runs; `Abstract` shows that
  every run is one of an atomic machine without locks, flags or stale nodes, `Atomic` that this machine
  is first-in first-out, and `Vain` that it fails or waits only when there is nothing else to do.
* **The locks one by one** (`Locks`, `LockOrder`, `LockRuns`, `LockUse`): the same machine with submit
  mutexes, channel mutexes and context mutexes that are held from one step to the next, and with the
  coroutine that is resumed as an agent of its own, which may wake up while its submission still goes on.
* **Staged runs** (`Stage`, `SelfMatch`, `Doomed`, `Acts`, `Divergence`): for every select of a certain
  kind, on channels of any sizes, a run in which it goes wrong.
* **Objects on the heap** (`Slots`, `Buffers`, `WaiterList`, `ChannelOps`, `HeapLists`): send slots,
  buffers, the doubly linked list, and operations on a channel, with other threads taking flags in
  between.
* **The code of a thread** (`Threads`, `SelectCode`): `select` and `select_ready` as loops and
  branches over the shared state, with arbitrary steps of all other threads before each access.
* `Tokens`: operations, alternatives and the tokens that name them.  `SumExample`: the example
  program that sums an array with many workers; `SumChannels`, `SumProgress`: the same program over the
  channels of the atomic machine, up to its end.
* `Options`, `Filters`, `Frames`, `Bystanders`, `Descent`: what several of these share.

All properties are stated for every configuration, every schedule and every input.

## Where the code does not do what it promises

* `write::clear_wait` removes a *writer* node through `reader_list()`
  (include/asiochan/write_op.hpp:204), though it was enqueued on `writer_list()` (line 173).  The
  machine follows the code: at an end of the writer list a pointer to the dead node stays behind
  (`Dangling`).  A select is safe if and only if it does not wait, or has one alternative, or has no
  write.  `Divergence.SafeNeverDangles`: among safe selects no run ever leaves such a pointer.
  `Divergence.UnsafeCanDangle`: whatever the sizes of the channels' buffers, every other select leaves
  one in some run in which all others are safe.  With `intended` set, the clean-up works on the writer
  list instead, and nothing goes wrong for anybody.  The rest is proved for both.
* The assertions of `dequeue` (include/asiochan/detail/channel_waiter_list.hpp:73-74) would notice
  the wrong list exactly when the node is at one end of its list and not alone in it
  (`WaiterList.WaiterList.WhenAssertionsPass`).
* A waiting select that uses one channel in both directions can lock its own context twice inside one
  `scoped_lock` (line 123 of the same file): when the later use is a write, or a read of a channel
  without a buffer.  A later read of a channel with a buffer never looks for a writer with its own
  context, and does no harm.  `Protocol.NeverMeetsItself` is that condition; a select that meets it
  never locks itself (`Progress.NeverLocksItself`), and every waiting select that does not, on channels
  of any sizes, locks itself up for ever in some run (`SelfMatch.SelfMatchLocksUp`).  Freedom from
  deadlock excludes these selects and no others; the safety properties hold even with them.

## Model

| member | source | states |
|---|---|---|
| Slots.SendSlot.Read | include/asiochan/detail/send_slot.hpp:15-19 | taking the value empties a full slot and returns what was in it |
| Slots.SendSlot.Write | include/asiochan/detail/send_slot.hpp:21-25 | an empty slot holds the value afterwards |
| Slots.Transfer | include/asiochan/detail/send_slot.hpp:37-43 | the value moves from the full slot to the empty one and is in the first no more |
| Buffers.RingBuffer.constructor | include/asiochan/detail/channel_buffer.hpp:44-46 | a ring of any positive size starts as the empty queue, all its slots distinct and empty |
| Buffers.RingBuffer.IsFull | include/asiochan/detail/channel_buffer.hpp:25-28 | full exactly when the queue it stands for is as long as the ring |
| Buffers.RingBuffer.Enqueue | include/asiochan/detail/channel_buffer.hpp:30-34 | appends the value of the slot to the queue; the slot it transfers to is empty; afterwards slot i is occupied exactly when it lies in the live window, modulo size |
| Buffers.RingBuffer.Dequeue | include/asiochan/detail/channel_buffer.hpp:36-41 | moves the oldest value of the queue to the slot and keeps the order of the others |
| Buffers.CountingBuffer.IsFull | include/asiochan/detail/channel_buffer.hpp:61-71 | the counter decides as a queue of that length would |
| Buffers.CountingBuffer.Enqueue | include/asiochan/detail/channel_buffer.hpp:73-77 | one element more, never beyond the limit |
| Buffers.CountingBuffer.Dequeue | include/asiochan/detail/channel_buffer.hpp:79-83 | one element less, never below none |
| Buffers.QueueBuffer.Enqueue | include/asiochan/detail/channel_buffer.hpp:131-134 | the value goes from the slot to the back of the queue |
| Buffers.QueueBuffer.Dequeue | include/asiochan/detail/channel_buffer.hpp:136-141 | the front of the queue goes to the slot |
| WaiterList.WaitContext.Claim | include/asiochan/detail/channel_waiter_list.hpp:26-30 | the flag goes down once; exactly the caller that took it is told so and recorded |
| WaiterList.WaiterNode.Notify | include/asiochan/detail/channel_waiter_list.hpp:43-46 | the promise of the node's context, not set before, gets the node's token |
| WaiterList.Rechained | include/asiochan/detail/channel_waiter_list.hpp:83-90 | when a node's neighbours point past it, all other nodes form a doubly linked chain |
| WaiterList.Bypass | include/asiochan/detail/channel_waiter_list.hpp:83-98 | unlinks a node from its neighbours, from wherever in the chain, and leaves it with null links |
| WaiterList.WaiterList.Enqueue | include/asiochan/detail/channel_waiter_list.hpp:54-69 | appends the node; both directions of links and both ends stay right |
| WaiterList.WaiterList.Dequeue | include/asiochan/detail/channel_waiter_list.hpp:71-99 | removes exactly that node; nothing for a node popped before; called on a wrong list, the node's own list stays sound if and only if the node was at neither of its ends |
| HeapLists.DequeueIsUnlink | include/asiochan/write_op.hpp:204-204 | what `dequeue` leaves of a node's list on the heap is what the machine's `Unlink` leaves of it, for a node popped before as well; the machine's `LeavesDangling` holds exactly where the list is the wrong one and the node at an end of its own |
| WaiterList.WaiterList.WhenAssertionsPass | include/asiochan/detail/channel_waiter_list.hpp:73-74 | the assertions hold if and only if the list is the right one, the node is in none, inside its own, or alone there |
| WaiterList.WaiterList.Pop | include/asiochan/detail/channel_waiter_list.hpp:109-121 | the first node leaves the list with null links |
| WaiterList.WaiterList.Inspect | include/asiochan/detail/channel_waiter_list.hpp:123-139 | one iteration under interference: a stale node is popped, or both flags are taken and the node is popped, or neither is and nothing is popped; flags only go down and no promise changes |
| WaiterList.WaiterList.DequeueFirstAvailable | include/asiochan/detail/channel_waiter_list.hpp:101-143 | under interference: drops exactly the stale nodes before the one it returns, takes that node's flag and the caller's or neither, wakes nobody, and returns null only with an empty list or a caller whose flag was gone |
| ChannelOps.ReadUnbuffered | include/asiochan/read_op.hpp:190-209 | the value of the first available writer lands in the reader's slot, the writer is woken with its token and both are claimed; or the reader joins its list; no other slot, flag or promise changes, but for flags that other threads take |
| ChannelOps.WriteUnbuffered | include/asiochan/write_op.hpp:141-150 | the same with the roles exchanged, for a channel without a buffer: the write that meets nobody joins its list, and nobody is woken |
| ChannelOps.PutInBuffer | include/asiochan/write_op.hpp:153-163 | the value is appended if and only if the own flag was still up, and is kept otherwise; nobody is woken |
| ChannelOps.TakeAndRefill | include/asiochan/read_op.hpp:172-183 | the oldest value is read, the waiting writer's value appended: there is always room, and the writer is woken with its token; no flag is touched |
| Filters.OpenOfTaken | include/asiochan/detail/channel_waiter_list.hpp:26-30 | taking a flag removes the select's nodes, and only those, from what is available in any list |
| Filters.ClaimKeepsOrder | include/asiochan/detail/channel_waiter_list.hpp:123-137 | completed nodes followed by available ones remain the arrivals that are still in the running, in order, when some select is claimed elsewhere |
| Keep.KeepStep | include/asiochan/select.hpp:28-110 | every step of every thread keeps the invariant of channel mutexes, claims, lists, wake-ups, order and slots; no assertion fails; a pointer dangles exactly when a write at an end of its list is cleaned up on the wrong list |
| Runs.AssertionsHold | include/asiochan/detail/send_slot.hpp:15-43 | in every run slots are full and empty as read, write and transfer demand, buffers are not over- or underrun, promises are set once and every select gets a result |
| Runs.NoLostWakeup | include/asiochan/read_op.hpp:161-209 | an available reader finds an empty buffer and no available writer; an available writer finds a full buffer, though flags fall without the channel's mutex |
| Runs.SleepersAreRegistered | include/asiochan/select.hpp:49-76 | a select that sleeps unclaimed has a node in the right list of every alternative, and none of them is ready |
| Runs.StepIsFinal | include/asiochan/async_promise.hpp:100-116 | no step takes a flag, or sets a promise, that another step took or set |
| Runs.DecisionsAreFinal | include/asiochan/detail/channel_waiter_list.hpp:26-30 | in every continuation of every run a taken flag stays taken for the same alternative, a promise keeps its value, a returned select does not change |
| Runs.SelectedOnce | README.md:180-180 | a select completes on exactly the channel of the alternative it was claimed for, once, and nowhere else; its promise names that alternative |
| Runs.OneDebtor | include/asiochan/select.hpp:73-76 | exactly one thread will set the promise of a claimed select, and it can go on |
| Locks.MoveKeeps | include/asiochan/select.hpp:49-83 | with submit, channel and context mutexes taken one after the other and held across moves, every move keeps the invariant and does what one step of the machine does, or nothing |
| Locks.Projects | include/asiochan/detail/channel_waiter_list.hpp:123-123 | forgetting the locks, every run with them is a run of the machine |
| Locks.ClearsAfterSubmission | include/asiochan/select.hpp:83-83 | a coroutine past the submit mutex holds it, its submission is over, the submitter holds no lock and does nothing more; so both never use the wait states |
| LockOrder.LevelsRise | include/asiochan/read_op.hpp:159-190 | whoever needs a lock holds only locks of a lower level: submit mutex, then channel mutex, then all context mutexes of a step |
| LockOrder.NobodyWaitsInACircle | include/asiochan/detail/channel_waiter_list.hpp:123-123 | a chain of agents each waiting for a lock of the next never closes, and is no longer than there are levels |
| LockOrder.BlockedMeansWaiting | include/asiochan/select.hpp:83-83 | an agent that cannot go on is suspended or waits for a lock that somebody holds |
| LockOrder.SomeHolderMoves | include/asiochan/read_op.hpp:159-159 | as long as any lock is held, somebody who holds one can go on |
| LockOrder.FineRestIsQuiet | include/asiochan/select.hpp:83-109 | if no agent can move, no lock is held and every select has returned, coroutine and all, or sleeps unclaimed |
| LockRuns.FineClaimedSelectsReturn | include/asiochan/select.hpp:73-109 | every run with locks can go on to where none is held and a claimed select has returned with its token |
| LockRuns.CleanFinish | include/asiochan/select.hpp:83-109 | from the return of a coroutine on, none of its nodes is in any list, nobody holds its submit mutex or its context's, and neither it nor its submitter holds a lock or does anything more |
| LockUse.FlagsFallUnderMutex | include/asiochan/detail/channel_waiter_list.hpp:123-137 | an agent that takes the flag of a waiting select holds the mutex of its context |
| LockUse.FlagsSeenUnderMutex | include/asiochan/detail/channel_waiter_list.hpp:123-133 | a flag is looked at only with that mutex held: whatever the flags of all other waiting selects are, the agent can make the same move, the same happens, and those flags stay as they are |
| LockUse.ChannelsChangeUnderMutex | include/asiochan/read_op.hpp:159-234 | lists and buffer of a channel change only while the agent holds the channel's mutex, or, in the one-step clean-up, found it free |
| LockUse.WaitStatesChangeUnderMutex | include/asiochan/select.hpp:49-83 | the wait states and the result of a select that waits change only under its submit mutex |
| Fifo.ValuesInOrder | include/asiochan/read_op.hpp:107-135 | what the reads got, then what is on offer, are the values of the writes that did not complete elsewhere, in order of arrival, across hand-over, buffering and refill; reads complete in order of arrival |
| Fifo.FirstInFirstOut | README.md:85-85 | a channel to which only plain writes wait, and wait-free selects write as they like, delivers all values in order of arrival |
| Fifo.ArrivalUnderLock | include/asiochan/write_op.hpp:139-139 | the order of arrival is the order in which the channel's mutex was taken |
| Conservation.ValuesAreConserved | include/asiochan/write_op.hpp:141-164 | in every run each value occurs in slots, results and buffers together exactly as often as the writes of the configuration were given it |
| Conservation.LosersKeepTheirValues | include/asiochan/write_op.hpp:145-158 | a write that did not complete still has its value, one that did has it no more |
| Progress.StepDecreases | include/asiochan/detail/channel_waiter_list.hpp:105-140 | every step, stale pops included, decreases a measure: no run goes on for ever |
| Progress.NeverLocksItself | include/asiochan/detail/channel_waiter_list.hpp:123-123 | a select that cannot meet itself, for its alternatives and their buffers, never locks one context twice |
| Progress.RestIsQuiet | include/asiochan/select.hpp:83-109 | if nobody can move, all mutexes are free and every select has returned or sleeps unclaimed |
| Progress.ClaimedSelectsReturn | include/asiochan/select.hpp:73-109 | every run can go on to where a claimed select has returned with the token it was claimed for |
| SelfMatch.SelfMatchLocksUp | include/asiochan/detail/channel_waiter_list.hpp:123-123 | on channels of any sizes, every waiting select that can meet itself locks itself up for ever in some run among single attempts to read and write |
| Divergence.SafeNeverDangles | include/asiochan/write_op.hpp:184-208 | if no write waits beside another alternative, no list is ever left with a pointer to a dead node |
| Divergence.UnsafeCanDangle | include/asiochan/write_op.hpp:203-204 | on channels of any sizes, every select with a write that waits beside another alternative leaves such a pointer in some run in which no other select does so |
| Abstract.StepRefines | include/asiochan/read_op.hpp:145-215 | every step is one action of the atomic machine or cannot be seen: get the head, put where no write waits, meet the first counterpart, admit the first waiting write, join, miss |
| Abstract.Refinement | include/asiochan/write_op.hpp:123-181 | every run is a run of the atomic machine |
| Atomic.ActionOnOffers | include/asiochan/write_op.hpp:141-175 | an action of the atomic machine takes the first of the channel's offers, adds one at the back, or stores the first waiting one where it stands; apart from that only completed selects withdraw |
| Atomic.AtomicFirstInFirstOut | README.md:85-85 | in every run of the atomic machine the values dealt, then those on offer, are those of the writes in order of arrival that did not complete elsewhere; reads too are served in order |
| Vain.GivesUpOnlyInVain | include/asiochan/read_op.hpp:100-211 | in every run of the atomic machine: a try fails exactly if its alternative can neither be served from stock nor put into it nor meet anybody, with no write on its way into stock; a wait begins exactly then, once per alternative, and not facing the own select |
| Vain.MeetsOverEmptyBuffer | include/asiochan/write_op.hpp:141-150 | on a channel with a buffer only a write meets its counterpart directly, with the buffer empty and no write waiting |
| Abstract.ReturnsWhatWasDealt | include/asiochan/select.hpp:93-98 | what a select returns is what the atomic machine dealt to it, in its only deal |
| Ready.DroppingChangesNothing | include/asiochan/detail/channel_waiter_list.hpp:139-139 | dropping a stale node makes no alternative of any select ready or unready and cannot be seen |
| Ready.EarlierWereTried | include/asiochan/select.hpp:120-138 | an alternative that select_ready passed over was looked at and not ready, and its channel was left as it was |
| Ready.ChosenWasReady | include/asiochan/select.hpp:51-62 | an alternative completed by its own thread was ready at that moment and completed in one atomic action |
| Ready.ReadTakesHead | include/asiochan/read_op.hpp:107-135 | a read that completes on its own account returns the first of the channel's offers at that moment |
| Ready.ReturnsFirstReady | include/asiochan/select.hpp:115-143 | select_ready returns the first ready alternative in order of arguments |
| Ready.WaitFreeSelectsReturn | include/asiochan/select.hpp:140-142 | select_ready always gets to return with a result |
| Ready.TryReadIsExact | include/asiochan/detail/channel_method_ops.hpp:26-40 | try_read fails if and only if the channel has no offers, and otherwise returns the first |
| Ready.TryWriteIsExact | include/asiochan/detail/channel_method_ops.hpp:43-53 | try_write fails if and only if no reader is available and the buffer is full |
| Tokens.BaseTokens | include/asiochan/detail/select_impl.hpp:17-25 | the running sum starts at none and grows from operation to operation by the number of its channels, by one for `nothing`; it is the number of alternatives before the operation |
| Tokens.NamesOne | include/asiochan/detail/select_impl.hpp:17-25 | no token names two alternatives |
| Tokens.NamesSome | include/asiochan/detail/select_impl.hpp:17-25 | every token below the number of alternatives names one |
| Tokens.Decode | include/asiochan/select.hpp:85-105 | asking every operation sets the result exactly once, with the alternative that the token names, one of the channels of that operation |
| Tokens.EveryChannelIsTried | include/asiochan/read_op.hpp:155-211 | the alternatives of an operation are its channels, all of them, in their order and side by side, in its own direction; its input is the value of the write |
| Tokens.OperationsInOrder | include/asiochan/select.hpp:51-70 | operations are tried in the order of the arguments |
| Tokens.NextOpIsNext | include/asiochan/select.hpp:51-70 | a submission that is overtaken in one operation goes on with the first alternative of the next operation |
| Tokens.SelectionIsOk | include/asiochan/select_concepts.hpp:62-72 | what the types of select, select_ready and write demand makes a configuration legal |
| Tokens.SelectionIsExact | include/asiochan/select_concepts.hpp:62-72 | for operations on existing channels that demand is exactly this: there is one, and no alternative is sure not to wait but the last one of select_ready, which is |
| Tokens.TokensRoundTrip | include/asiochan/select.hpp:55-62 | the token a select returns with names, uniquely, the operation and the place among its channels that the select was claimed for: a read of, or a write to, the channel at that place |
| SelectCode.Acquire | include/asiochan/read_op.hpp:234-234 | a thread that waits for a channel's mutex gets it, whatever the others do, and finds its own affairs untouched |
| SelectCode.DequeueFirstAvailable | include/asiochan/detail/channel_waiter_list.hpp:101-143 | the scan ends with a match, an empty list, or an own flag that is gone |
| SelectCode.SubmitRead | include/asiochan/read_op.hpp:155-211 | one channel of a read: it completed, ready when the own flag was taken; or it was looked at in vain, a node stays behind if the select waits, and the next alternative comes; or a peer has won and the next operation comes |
| SelectCode.SubmitWrite | include/asiochan/write_op.hpp:135-177 | one channel of a write: the same three ways to go on |
| SelectCode.Await | include/asiochan/select.hpp:37-81 | the promise is set, or the system is at rest and the select unclaimed |
| SelectCode.ClearWaits | include/asiochan/read_op.hpp:217-239 | the clean-up of all alternatives ends, and keeps the result |
| SelectCode.Select | include/asiochan/select.hpp:28-110 | among any other threads: returns its token and the value dealt to it, or sleeps unclaimed in a system at rest |
| SelectCode.SelectReady | include/asiochan/select.hpp:115-143 | among any other threads: returns, with the first ready alternative and the value dealt to it |
| SumExample.NextIsValid | examples/example_sum.cpp:26-73 | unsent numbers, partial sums and the value in flight always add up to the sum of the array |
| SumExample.NeverStuck | examples/example_sum.cpp:40-73 | a system in which sender and receiver act together is not stuck before its end; SumProgress.NotStuck says so of the program over the channels |
| SumExample.NextDecreases | examples/example_sum.cpp:26-73 | every action of that system decreases a measure; SumProgress.MoveDecreases says so over the channels |
| SumExample.SumTask | examples/example_sum.cpp:40-73 | for every array, every positive number of workers and every schedule that system ends, the result is the sum, and each worker has consumed exactly one nullopt; SumProgress.SumIsReached has the same over the channels |
| SumChannels.UnbufferedMeets | include/asiochan/read_op.hpp:190-209 | on a channel without a buffer nothing is ever in stock: operations wait or meet, nothing else |
| SumChannels.MeetingPairs | include/asiochan/write_op.hpp:141-150 | a meeting completes exactly one reader and one writer and deals the one the other's value |
| SumChannels.MoveRefines | examples/example_sum.cpp:26-73 | every move of the program over the atomic channels is no action of the example's system or exactly one |
| SumChannels.SumOverChannels | examples/example_sum.cpp:40-73 | over the channels too: if the main routine ends, it returns the sum of the array |
| SumProgress.NotStuck | examples/example_sum.cpp:26-73 | the program over the channels is never stuck: before the end, if there is a select for each call that a routine has come to, some routine can make a call or go on, or some call can join its queue or meet another |
| SumProgress.MoveDecreases | examples/example_sum.cpp:26-73 | every move over the channels but idling decreases a measure |
| SumProgress.RunsAreShort | examples/example_sum.cpp:26-73 | no run over the channels has more moves than the measure at the start, idling apart |
| SumProgress.SumIsReached | examples/example_sum.cpp:40-73 | every run over the channels, whatever was called and paired so far, can go on, with as many more calls as it takes, to where the main routine has the sum and every worker has finished after one nullopt |

## Left out

- Memory below the mutexes: a critical section under a context mutex is one step, and what a thread
  does to a channel that it has locked takes effect together with the claim it belongs to.  In `Locks`
  the contexts of such a step are taken first, all together, and let go with it; the second look at the
  own flag after a refused search is part of the same step, not one more lock.
- Deaths of nodes and frames: after the clean-up has left a dangling pointer the machine stops; what
  a program does with such a pointer is not described.  Debug assertions are taken to be compiled out.
- The promise and its executor: a promise is a cell that is set once, resumption is a later step of
  the same thread (in `Locks`, of an agent of its own, at any time after); cancellation, broken
  promises and error codes do not occur.
- The order of `get_result` among the clean-ups: the result is read when the select resumes; the code
  reads it after cleaning up the operations before the successful one.  Nobody else can reach that slot.
- Runs.SelectedOnce: speaks of completed operations, not of the value categories of `select_result`,
  whose accessors are left out.
- Tokens.SelectionIsOk: one direction only; the step machine also admits wait-free alternatives that
  are not last, which the types of the library forbid.
- ChannelOps.PutInBuffer: a read or a write of a buffered channel is stated piece by piece on the
  heap; the pieces are put together on the shared state, in SelectCode.SubmitRead and
  SelectCode.SubmitWrite.
- WaiterList.WaiterList.DequeueFirstAvailable: other threads change flags, not the slots of selects
  that they have claimed; hand-overs by others are steps of the machine.
- SumExample.SumTask: any waiting worker may be served, which covers the order of the lists; `int`
  overflow is not modelled.
- SumProgress.SumIsReached: each call of the example is a select of the configuration; where none is
  left unused, the run goes on in a configuration that has one more.
- Integer overflow of the counter of an unbounded channel of `void`.
- Read-only and write-only handles, shared ownership of channels, the allocation tracer, `print`.
