# actor-zeta: a verified model of the runtime's protocols

actor-zeta runs actors as C++20 coroutines on a pool of worker threads. Its correctness rests on a few
lock-free protocols and a few pieces of pointer-linked state. This project models them in Dafny and
proves, for every interleaving and every input, what the comments in the code promise. Where a promise
is not kept, it proves exactly when it is.

Each concurrent component appears twice. A *machine* (a datatype of states, one action for every atomic
operation, any number of threads) carries the proofs about whole runs. A *class* is the code itself, with
loops, fields and compare-exchanges; its `Valid()` says that the fields are in a state some run of the
machine reaches, and every method is proved to take only steps of the machine, with other threads acting
before each atomic operation.

| files | what they model |
|---|---|
| `StateWord`, `Bits` | the packed 32-bit state word of an actor |
| `ActorMachine`, `ActorInvariants`, `ActorTheorems`, `ActorEvents`, `ActorTurns`, `ActorDestruction`, `CooperativeActor` | senders, drivers, the turn, parking and the destructor |
| `FutureMachine`, `FutureProofs`, `FutureTheorems`, `FutureFrames`, `SharedState` | the state between a promise and a future: outcome, extraction, "last one out", the producing coroutine's frame |
| `AwaitChain` | the chain of awaited states from an actor's behavior to its deepest await |
| `LifoInbox`, `LifoInboxClass`, `LinkedList`, `Mailbox` | the inbox with recycled node addresses, the intrusive list, the mailbox that joins them |
| `Scheduler`, `SchedulerClass` | the shared run queue, the workers and `stop` |
| `MessageSlot`, `Message` | who owes a message's result slot its outcome |
| `Rtt`, `RttClass` | the argument pack: layout and lifetime |
| `Wrappers` | a few types and functions the others share |

How the parts rest on each other: the machine of the actor has one bit `live` for "the behavior is suspended
at a co_await". `CooperativeActors.CooperativeActor` holds a real chain of coroutines (`AwaitChains.Coroutine`)
and keeps `live` equal to what `is_busy()` reads from the chain's root; `AwaitChains.BusyIffNotDone` makes "not
busy" and "done" one, by the agreement of the whole chain, so that `park` and the assignment of the next
behavior find a finished one (`LiveIsLeftAlone`). The chain in turn resumes what waits on a state whose outcome is
settled, which `FutureTheorems.SettledOutcome` provides. The actor's inbox is an atomic object with a count;
`LifoInboxes.StepRefines` proves that the linked inbox is such an object and `Mailboxes` that the two cached lists
in front of it lose and reorder nothing within a priority.

A loop that gives up says why: its answer `Aborted` or `Contended` or "not finished" comes with the number of
failed exchanges or waits in vain that this thread has in the trace, or with the assertion that failed.

## What the proofs found

- **A finished future state can leak.** A completed run leaves the state unfreed exactly when the consumer
  sets `consumed` between the load and the compare-exchange of `try_complete_finalize`, and then releases the
  future between that failed exchange and the clearing of `promise_finalizing`
  (`FutureTheorems.LeakExactly`; `LeakHappens` gives a run).
- **The destructor waits for a runner, not for its job node.** The assertion that nobody runs when the
  terminal word is written holds in every continuation exactly when no job node is outstanding as the drain
  ends, as long as nobody drives the actor without a node (`ActorDestruction.TerminalAssertionExactly`).
- **A coroutine frame is destroyed once exactly when one side, and only one, is bound to do it.** The future's owner
  destroys it if it finds the coroutine done; the coroutine does if the owner leaves before the producer has decided
  that it is alive. When both happen the frame is destroyed twice; when neither does it leaks
  (`FutureFrames.FrameDestroyedExactly`, with runs for both failures). On one thread exactly one happens
  (`FrameDestroyedOnce`).
- **Driving an actor without a job node** before `destroying` is published is exactly what breaks the law of the single
  node (`ActorTheorems.OneJobExactly`); no wakeup is lost all the same (`NoLostWakeup` allows it). It also defeats the
  destructor's assertion, whatever the drain found (`ActorDestruction.OutsideDriveDefeatsAssertion`).
- **The argument pack reserves by the declared type and stores the decayed one.** The constructor completes
  exactly when the decayed arguments take no more room (`RttLayout.ConstructedExactly`); a three-byte string
  literal aborts it (`ArrayArgumentAborts`).
- **Taking the promise from a message and transferring its ownership are two calls.** A slot nobody is left to settle
  has exactly one outcome if and only if a promise was taken once and the ownership transferred, or neither was done
  (`MessageSlots.SettledExactly`). Taken and not transferred, it is settled twice; transferred and never taken, never
  (`TakenSettlesTwice`, `TransferredNeverSettles`).
- **Assigning a list to itself** frees and forgets its nodes (`LinkedLists.LinkedList.MoveAssign`).

## Model

| member | source | states |
|---|---|---|
| StateWord.FlagUpdates | header/actor-zeta/actor/cooperative_actor.hpp:33-67 | setting or clearing a flag of the packed word changes that flag of the record and neither the others nor the sender count |
| StateWord.AddSenderExactly | header/actor-zeta/actor/cooperative_actor.hpp:81-83 | adding a sender increments the count and disturbs no flag exactly below 2^29 - 1, the bound asserted at line 184; at the bound the carry leaves the word and the count reads zero |
| StateWord.SubSenderExactly | header/actor-zeta/actor/cooperative_actor.hpp:85-87 | removing a registered sender decrements the count and disturbs no flag |
| StateWord.RebuiltWords | header/actor-zeta/actor/cooperative_actor.hpp:77-99 | `flags_of` is the word without its count; `make_state` rebuilds any three flags with count zero |
| StateWord.PackUnpack | header/actor-zeta/actor/cooperative_actor.hpp:33-99 | the 32-bit words and the records with a count in range are in bijection |
| ActorInvariants.StepInv | header/actor-zeta/actor/cooperative_actor.hpp:169-589 | every atomic step of any sender, driver or the destructor keeps the protocol's invariant, and the one-job law unless the step is an outside drive |
| ActorTheorems.NoLostWakeup | header/actor-zeta/actor/cooperative_actor.hpp:168-202 | in every reachable state that is not being destroyed, an inbox that is not blocked has `scheduled`, `running` or a registered sender that still owes the claim, and a set flag has an outstanding job node |
| ActorTheorems.WaitingWorkIsOwed | header/actor-zeta/actor/cooperative_actor.hpp:446-468 | a waiting message or a suspended behavior always has a job node, or a sender that will claim one |
| ActorTheorems.QuiescentIsParked | header/actor-zeta/actor/cooperative_actor.hpp:451-468 | when no thread is in flight and no node queued, the actor is parked: idle word, blocked inbox, nothing cached, no suspended behavior |
| ActorTheorems.ExactlyOneJob | header/actor-zeta/actor/cooperative_actor.hpp:263-312 | with job nodes created only by sends, the outstanding nodes number one while `scheduled` or `running` is set and none otherwise |
| ActorTheorems.OneJobExactly | header/actor-zeta/actor/cooperative_actor.hpp:263-339 | along any run the law holds in every state if and only if nobody drives the actor without a node before `destroying` is published |
| ActorTheorems.PokeBreaksOneJob | header/actor-zeta/actor/cooperative_actor.hpp:330-339 | where the law holds, a drive without a node breaks it exactly if the actor is not being destroyed |
| ActorTheorems.OneRunner | header/actor-zeta/actor/cooperative_actor.hpp:209-250 | at most one thread is between acquiring and releasing `running` |
| ActorTheorems.TurnFacts | header/actor-zeta/actor/cooperative_actor.hpp:337-459 | inside a turn the inbox is never found blocked before parking, the machine's `live` bit is clear at `park` and at the assignment of the next behavior, and the count handled is the count popped |
| ActorTheorems.VerdictFacts | header/actor-zeta/actor/cooperative_actor.hpp:263-314 | the verdict reports what the turn popped, at most its throughput; a suspended behavior yields `resume`; `resume` holds exactly when `scheduled` is left set, and only with work left or a claim made meanwhile; `awaiting` leaves nothing cached |
| ActorTheorems.ContendedVerdict | header/actor-zeta/actor/cooperative_actor.hpp:217-250 | a contended call is told `awaiting`, leaves `scheduled` set for the runner it met, and that runner still has a node |
| ActorTheorems.AcquiredTurn | header/actor-zeta/actor/cooperative_actor.hpp:229-243 | the driver that gets the turn is alone in it, and starts it with `scheduled` clear and the sender count untouched |
| ActorTheorems.TurnProgress | header/actor-zeta/actor/cooperative_actor.hpp:319-444 | each step of a turn but a failed compare-exchange decreases a measure: the turn terminates |
| ActorTurns.TurnHandlesMessages | header/actor-zeta/actor/cooperative_actor.hpp:319-444 | a turn that begins with messages waiting and no behavior suspended, on an actor not being destroyed, handles at least one; unless a behavior suspends, as many as waited or as its throughput allows |
| ActorTurns.ParksOnlyEmpty | header/actor-zeta/actor/cooperative_actor.hpp:362-432 | short of its throughput a turn comes to parking only with nothing cached |
| ActorTurns.MessagesConserved | header/actor-zeta/actor/cooperative_actor.hpp:192-443 | until the mailbox is destroyed, the messages that found the inbox not closed are those handed to a turn for delivery and those still in the mailbox |
| ActorTurns.DyingTurnIsDone | header/actor-zeta/actor/cooperative_actor.hpp:322-324 | a turn begun on an actor being destroyed answers `done`, handles nothing and leaves the mailbox and the behavior alone |
| ActorTheorems.AssertionsHold | header/actor-zeta/actor/cooperative_actor.hpp:184-542 | on an actor that has not been freed, and the sender bound aside: a leaving sender is registered, the guard finds `running` set, un-parking happens under `running`, the inbox is open where it is emptied, and `park` finds no live behavior |
| ActorDestruction.DestroyingStep | header/actor-zeta/actor/cooperative_actor.hpp:174-192 | once `destroying` is published it stays, the sender count never grows, no thread newly registers, and no send is told to schedule |
| ActorDestruction.DestroyingRun | header/actor-zeta/actor/cooperative_actor.hpp:480-513 | the same, all four, over any run from that point |
| ActorDestruction.DrainWaits | header/actor-zeta/actor/cooperative_actor.hpp:561-589 | the destructor's drain ends only when nobody runs the actor and no sender is registered |
| ActorDestruction.TerminalHasNoSender | header/actor-zeta/actor/cooperative_actor.hpp:497-511 | past the drain the count is zero and no sender is between its registration and its last compare-exchange |
| ActorDestruction.TerminalAssertionExactly | header/actor-zeta/actor/cooperative_actor.hpp:499-512 | the assertion that nobody runs holds in every continuation without outside drives if and only if no job node is outstanding when the drain ends |
| ActorDestruction.OutsideDriveDefeatsAssertion | header/actor-zeta/actor/cooperative_actor.hpp:499-512 | with outside drives some continuation always breaks it |
| CooperativeActors.CooperativeActor.EnqueueImpl | header/actor-zeta/actor/cooperative_actor.hpp:169-202 | answers `queue_closed` exactly if no message was added, `unblocked_reader` exactly if this push found the inbox blocked, `success` otherwise; `needs_sched` only with `unblocked_reader`; aborts only at the asserted sender bound or after 999 failed exchanges |
| CooperativeActors.CooperativeActor.LeaveAndMaybeSchedule | header/actor-zeta/actor/cooperative_actor.hpp:533-557 | deregisters and, if it unblocked the reader, claims `scheduled` in the same exchange; aborts only after 999 failed ones |
| CooperativeActors.CooperativeActor.Resume | header/actor-zeta/actor/cooperative_actor.hpp:206-315 | one whole turn: the count reported is the number of messages this thread took out of the mailbox; on an actor being destroyed it is none and the answer is not `resume`; aborts only after 999 failed exchanges or on an actor whose mailbox is gone |
| CooperativeActors.CooperativeActor.ReleaseRunning | header/actor-zeta/actor/cooperative_actor.hpp:263-285 | drops `running`, keeps or inherits `scheduled`, and reports what it saw set meanwhile; aborts only after 999 failed exchanges |
| CooperativeActors.CooperativeActor.ResumeImpl | header/actor-zeta/actor/cooperative_actor.hpp:319-444 | takes the machine's steps, and takes as many messages out of the mailbox as it reports, at most `max_throughput`; `done` at once on an actor being destroyed; aborts only on an actor whose mailbox is gone |
| CooperativeActors.CooperativeActor.LiveIsLeftAlone | header/actor-zeta/actor/cooperative_actor.hpp:341-459 | in a turn about to park or to deliver, the chain of coroutines the actor holds is done, as `park` asserts |
| CooperativeActors.CooperativeActor.LiveYieldsResume | header/actor-zeta/actor/cooperative_actor.hpp:345-356 | a turn that ends with the behavior unfinished answers `resume` with `scheduled` kept, unless the actor is being destroyed |
| CooperativeActors.CooperativeActor.DrainBehavior | header/actor-zeta/actor/cooperative_actor.hpp:341-356 | a behavior still suspended where it was is not ready, and one that is not has been resumed and has let the awaited future go; goes on exactly if it is not busy then |
| CooperativeActors.CooperativeActor.DeliverMessage | header/actor-zeta/actor/cooperative_actor.hpp:418-424 | the behavior that the next message overwrites is done, and unless the actor is being destroyed a new one takes its place |
| CooperativeActors.CooperativeActor.Park | header/actor-zeta/actor/cooperative_actor.hpp:452-468 | the behavior is done; never `awaiting` with `scheduled` kept, never `done`; aborts only on an actor whose mailbox is gone |
| CooperativeActors.CooperativeActor.Destroy | header/actor-zeta/actor/cooperative_actor.hpp:480-513 | if the destructor returns, no sender is registered and the word is destroying alone; it aborts only on a runner in the word it loaded last, after waiting in vain for as long as it may, or after 999 failed exchanges |
| FutureProofs.StepInv | header/actor-zeta/detail/shared_state.hpp:61-184 | every step of either side keeps the invariant that ties each flag, the storage and the memory to the two program counters |
| FutureTheorems.SettledOutcome | header/actor-zeta/detail/shared_state.hpp:135-153 | `promise_released` implies exactly one of value and error, and it is the producer's; a death without an outcome reads `state_not_recoverable` |
| FutureTheorems.FlagsOnlyGrow | header/actor-zeta/detail/shared_state.hpp:120-125 | every flag but `promise_finalizing` is monotone |
| FutureTheorems.TakesTheProducedValue | header/actor-zeta/detail/shared_state.hpp:120-132 | what is taken is the value the producer set, at most once; a passed check never ends in a refusal; ready, not failed and not taken means `holds_value` |
| FutureTheorems.NoUseAfterFree | header/actor-zeta/detail/shared_state.hpp:155-184 | for each of the three producer exits: freed at most once, and only when both sides have left |
| FutureTheorems.LeakExactly | header/actor-zeta/detail/shared_state.hpp:165-184 | a completed run frees the state once, unless both of the two windows were hit, and then never; the message cleanup always frees |
| FutureTheorems.LeakHappens | header/actor-zeta/detail/shared_state.hpp:171-183 | a run in which the consumer takes and releases while the producer finalizes, and the state is never freed |
| FutureTheorems.CleanupHasNoWindow | header/actor-zeta/mailbox/message.hpp:57-65 | the cleanup of a refused message never finalizes, so it cannot leak |
| FutureFrames.FrameDestroyedExactly | header/actor-zeta/detail/future.hpp:238-314 | in every completed run the frame is destroyed once for an owner that found the coroutine done, and once more for a producer that found the owner gone: so exactly once if and only if one of the two happened |
| FutureFrames.FrameDestroyedOnce | header/actor-zeta/detail/future.hpp:238-314 | with producer and consumer on one thread the frame is destroyed exactly once in a completed run, never before its coroutine is done, and the state is freed |
| FutureFrames.FrameDestroyedTwice | header/actor-zeta/detail/future.hpp:287-314 | a run in which the owner leaves inside the final awaiter and both sides destroy the frame |
| FutureFrames.FrameLeaks | header/actor-zeta/detail/future.hpp:238-251 | a run in which the owner looks before the coroutine is done and leaves after it has decided, and nobody destroys the frame |
| SharedStates.SharedState.SetValue | header/actor-zeta/detail/shared_state.hpp:61-66 | stores, then publishes; the storage was empty |
| SharedStates.SharedState.ReleasePromise | header/actor-zeta/detail/shared_state.hpp:139-153 | repairs a missing outcome in the same write, and deallocates exactly when it reports so |
| SharedStates.SharedState.TryCompleteFinalize | header/actor-zeta/detail/shared_state.hpp:166-184 | answers false exactly when it deallocated |
| SharedStates.SharedState.SettleState | header/actor-zeta/detail/future.hpp:115-126 | the producer's exit: sets finalizing first; if it says alive, the state is unfreed or the consumer has left |
| SharedStates.SharedState.CleanupSlot | header/actor-zeta/mailbox/message.hpp:57-65 | afterwards the consumer has left or reads `operation_canceled` on a ready, failed state |
| SharedStates.SharedState.TakeReady | header/actor-zeta/detail/future.hpp:178-196 | yields the producer's value and lets the state go; a ready future whose producer left a value is never refused |
| SharedStates.SharedState.Release | header/actor-zeta/detail/future.hpp:238-251 | looks at the frame first, and reclaims it if the coroutine is done; afterwards the state is freed exactly if the producer had left it alive |
| AwaitChains.Promise.UpdatePropagatedOuter | header/actor-zeta/detail/future_awaiters.hpp:153-163 | terminates on the chain's depth and leaves every promise above naming what this one names |
| AwaitChains.Promise.PropagateAwaitedState | header/actor-zeta/detail/future_awaiters.hpp:115-147 | points at the awaited state, or past it at what its coroutine awaits, in every promise of the chain, and links the inner promise to this one |
| AwaitChains.Promise.ClearAwaitedChain | header/actor-zeta/detail/future_awaiters.hpp:165-169 | nulls both pointers in every promise of the chain |
| AwaitChains.Coroutine.AwaitFuture | header/actor-zeta/detail/future_awaiters.hpp:24-99 | suspends exactly when no look at the state found a result; then all copies name the state, which has us registered; else all are null and the future is gone |
| AwaitChains.Coroutine.AwaitMethod | header/actor-zeta/detail/future_awaiters.hpp:124-146 | awaiting a suspended method joins the two chains, and all copies come to name its deepest awaited state |
| AwaitChains.Coroutine.AwaitCallee | header/actor-zeta/detail/future_awaiters.hpp:64-99 | awaiting a method's future suspends the caller exactly if the method has not finished, and then on what the method waits for |
| AwaitChains.Coroutine.Return | header/actor-zeta/detail/future.hpp:287-314 | the final awaiter claims the awaiting coroutine's registration once and hands control to it; its await clears the chain before the finished future goes |
| AwaitChains.Coroutine.TakeAwaitedContinuation | header/actor-zeta/detail/behavior_t.hpp:252-261 | through the root's copy alone, claims the deepest suspended coroutine, if any, and leaves none to claim |
| AwaitChains.Coroutine.Drain | header/actor-zeta/actor/cooperative_actor.hpp:345-356 | if the deepest awaited state is ready, its coroutine gets control, lets that future go and ends or suspends on a new one; if not, nothing changes; a finished behavior stays finished, and afterwards busy means not done |
| AwaitChains.Coroutine.Deliver | header/actor-zeta/actor/cooperative_actor.hpp:420-422 | a new behavior replaces a finished one and runs until it suspends or ends |
| AwaitChains.Coroutine.RunUserCode | header/actor-zeta/detail/future_awaiters.hpp:64-169 | any sequence of awaits, method calls, awaits of their futures then or later, dropped futures and returns keeps all copies, links and registrations of the chain in agreement, and no copy names a state whose future is gone |
| AwaitChains.BusyIffNotDone | header/actor-zeta/detail/behavior_t.hpp:225-236 | whenever a turn has control, a behavior is busy exactly when it is not done |
| LifoInboxes.StepInv | header/actor-zeta/detail/queue/lifo_inbox.hpp:33-117 | every step of any pusher, of the reader, and of whoever recycles a node's memory keeps the chain's ownership and linkage |
| LifoInboxes.StepRefines | header/actor-zeta/detail/queue/lifo_inbox.hpp:33-117 | every step is one operation of the atomic closed/blocked/sequence object, or none, although compare-exchanges see addresses only |
| LifoInboxes.PushResultRefines | header/actor-zeta/detail/queue/lifo_inbox.hpp:33-47 | a push answers what the atomic object's state calls for at that moment |
| LifoInboxes.TakeRefines | header/actor-zeta/detail/queue/lifo_inbox.hpp:82-99 | the reader walks exactly the object's messages, newest first |
| LifoInboxes.Conserved | header/actor-zeta/detail/queue/lifo_inbox.hpp:33-117 | accepted messages left once, in order, or are still stacked; wake-ups never exceed successful blocks; a closed inbox holds nothing |
| LifoInboxes.ClosedAbsorbs | header/actor-zeta/detail/queue/lifo_inbox.hpp:59-61 | closed is for ever and accepts nothing |
| LifoInboxObjects.LifoInbox.PushFront | header/actor-zeta/detail/queue/lifo_inbox.hpp:33-47 | its last step pushes this message onto the atomic object and the answer is the object's, or the object is closed and the answer is `queue_closed`; it gives up only after as many failed exchanges of this pusher as it may try |
| LifoInboxObjects.LifoInbox.TakeChain | header/actor-zeta/detail/queue/lifo_inbox.hpp:82-99 | an ordinary take never closes: it found the inbox empty, or its last step is the object's take and leaves it open and empty; a closing one ends with the object's close; it gives up only after as many failed exchanges as it may try |
| LifoInboxObjects.LifoInbox.Close | header/actor-zeta/detail/queue/lifo_inbox.hpp:110-117 | afterwards the inbox is closed and everything ever accepted has been taken; it frees as many nodes as it took |
| LifoInboxObjects.LifoInbox.TryBlockInbox | header/actor-zeta/detail/queue/lifo_inbox.hpp:72-75 | blocks an open, empty inbox, and fails on any other |
| LifoInboxObjects.LifoInbox.TryUnblockInbox | header/actor-zeta/detail/queue/lifo_inbox.hpp:77-80 | reopens a blocked inbox, and fails only on one that is not blocked |
| LifoInboxObjects.LifoInbox.FreeChain | header/actor-zeta/detail/queue/lifo_inbox.hpp:110-117 | frees every node of the chain once, in order, reading each link before its node may be reused |
| LinkedLists.LinkedList.PushBack | header/actor-zeta/detail/queue/linked_list.hpp:138-144 | appends to the sequence, with the sentinels, the tail's link and the size in agreement |
| LinkedLists.LinkedList.PushFront | header/actor-zeta/detail/queue/linked_list.hpp:155-164 | prepends to the sequence |
| LinkedLists.LinkedList.PopFront | header/actor-zeta/detail/queue/linked_list.hpp:79-91 | removes and returns the first node, or null from an empty list; the node is no longer in the chain |
| LinkedLists.LinkedList.InsertAfter | header/actor-zeta/detail/queue/linked_list.hpp:175-185 | inserts behind any position but the end |
| LinkedLists.LinkedList.Drain | header/actor-zeta/detail/queue/linked_list.hpp:188-202 | hands over every node once, in order, though the callback may destroy each node's link |
| LinkedLists.LinkedList.TakeOver | header/actor-zeta/detail/queue/linked_list.hpp:36-44 | the move constructor: all nodes change lists, none is shared, the other list is empty |
| LinkedLists.LinkedList.MoveAssign | header/actor-zeta/detail/queue/linked_list.hpp:46-56 | frees what was held and takes over the other's nodes; on itself it frees everything |
| Mailboxes.Mailbox.PushBack | header/actor-zeta/impl/mailbox/default_mailbox.ipp:13-15 | appends to what waits at the message's priority and nothing else, or refuses on a closed inbox; tells whether it unblocked the reader |
| Mailboxes.Mailbox.TryBlock | header/actor-zeta/impl/mailbox/default_mailbox.ipp:47-49 | blocks only with nothing waiting, and fails only with something cached or an inbox that is not open and empty |
| Mailboxes.Mailbox.FetchMore | header/actor-zeta/impl/mailbox/default_mailbox.ipp:77-97 | moves the whole inbox behind what is cached, keeping the order of arrival within each priority; answers whether anything came |
| Mailboxes.Mailbox.Distribute | header/actor-zeta/impl/mailbox/default_mailbox.ipp:85-95 | inserting the newest-first chain at two fixed points appends it reversed, split by priority |
| Mailboxes.Mailbox.PopFront | header/actor-zeta/impl/mailbox/default_mailbox.ipp:25-37 | the oldest cached urgent message, else the oldest cached normal one, else fetches; null only when nothing waits |
| Mailboxes.Mailbox.Size | header/actor-zeta/impl/mailbox/default_mailbox.ipp:68-71 | everything that waits, which is what arrived less what was popped |
| Mailboxes.Mailbox.Close | header/actor-zeta/impl/mailbox/default_mailbox.ipp:55-66 | closes for good; everything that ever arrived was popped or bounced, once, and the count returned is the bounced |
| Mailboxes.NothingLost | header/actor-zeta/impl/mailbox/default_mailbox.ipp:55-66 | in-order delivery within each priority accounts for every message, with multiplicity |
| SchedulerMachine.PoolStep | header/actor-zeta/scheduler/scheduler.hpp:61-106 | every step keeps the law that the round's one shutdown node is queued, held or counted, and the histories only grow |
| SchedulerMachine.Fifo | header/actor-zeta/scheduler/policy/work_sharing.hpp:33-65 | a node at index i is what the (i+1)-th later dequeue takes, whatever is enqueued or put back behind it |
| SchedulerMachine.RoundsTakeWorkers | header/actor-zeta/scheduler/scheduler.hpp:90-95 | after k rounds exactly k workers have taken a shutdown node, none is about to, and none is queued |
| SchedulerMachine.LastRoundEndsDequeues | header/actor-zeta/scheduler/worker.hpp:65-98 | after n rounds nothing is dequeued again and every worker has left its loop |
| SchedulerMachine.DrainedAll | header/actor-zeta/scheduler/policy/work_sharing.hpp:70-84 | when `stop` has drained, every node ever enqueued was dequeued or drained, in order, and every thread has ended |
| SchedulerMachine.NodesConserved | header/actor-zeta/scheduler/worker.hpp:71-95 | every node enqueued for a job is queued, in a worker's hand or drained, less those whose verdict did not ask for more |
| SchedulerMachine.StopIsNeverStuck | header/actor-zeta/scheduler/scheduler.hpp:90-99 | until it returns, `stop` or some worker can take a step |
| Schedulers.Scheduler.Run | header/actor-zeta/scheduler/worker.hpp:65-98 | every node taken is discharged by its verdict but the shutdown node that ends the loop; it ends otherwise only after its turns or its waits in vain |
| Schedulers.Scheduler.ResumeJob | header/actor-zeta/scheduler/worker.hpp:71-95 | the last step is the discharge of this node, and on `resume` the node is last in the queue |
| Schedulers.Scheduler.StopAll | header/actor-zeta/scheduler/scheduler.hpp:61-106 | if it finishes: queue empty, every thread ended, and the drained nodes are those enqueued and never dequeued; if not, it has waited in vain for a round or a thread as often as it may |
| Schedulers.Scheduler.ShutWorkers | header/actor-zeta/scheduler/scheduler.hpp:86-95 | completes exactly `n` rounds, or has waited in vain as often as it may |
| MessageSlots.StepInv | header/actor-zeta/mailbox/message.hpp:57-74 | every step keeps, for each state: outcomes and live promises together are the promises taken, plus one if the message died owning it |
| MessageSlots.SettledExactly | header/actor-zeta/mailbox/message.hpp:54-74 | once nobody is left to settle a slot it has one outcome if and only if a promise was taken once and the ownership transferred, or neither; in general one per promise taken, and one more without a transfer |
| MessageSlots.SettledOnce | header/actor-zeta/mailbox/message.hpp:54-74 | a slot whose takes and transfer go together is settled at most once, and has been exactly when nobody owes it |
| MessageSlots.DispatchBalances | header/actor-zeta/actor/dispatch.hpp:94-101 | taking and then transferring, or the other way round as a router does, leave the same state with takes and transfer together |
| MessageSlots.AllSettled | header/actor-zeta/impl/mailbox/message.ipp:76-81 | when all messages and promises are gone a slot has exactly one outcome if and only if its takes and transfer went together |
| MessageSlots.UndispatchedIsCancelled | header/actor-zeta/actor/cooperative_actor.hpp:180-194 | refused by either gate, bounced by the mailbox, dropped, or left undispatched by its turn: a slot no promise was taken for is cancelled, and no other is touched |
| MessageSlots.DispatchedIsNotCancelled | header/actor-zeta/actor/dispatch.hpp:94-122 | a transferred slot is never cancelled; taken once, it is settled by its promise alone |
| MessageSlots.PromiseDecides | header/actor-zeta/detail/future.hpp:60-126 | a promise settles its own slot with what its holder said, or with broken_pipe when it dies, and no other slot |
| MessageSlots.TakenSettlesTwice | header/actor-zeta/mailbox/message.hpp:67-74 | a run in which a promise is taken without the transfer and the slot is settled by it and by the message |
| MessageSlots.TransferredNeverSettles | header/actor-zeta/mailbox/message.hpp:67-74 | a run in which the ownership is transferred, no promise is taken, and the slot is never settled |
| Messages.Message.MoveAssign | header/actor-zeta/impl/mailbox/message.ipp:50-66 | cancels the slot it owed, takes over the other's, which keeps none; nothing on itself |
| Messages.Message.Cleanup | header/actor-zeta/impl/mailbox/message.ipp:76-81 | cancels exactly the slot the message owes |
| Messages.Dispatch | header/actor-zeta/actor/dispatch.hpp:94-122 | whether or not the method suspends, the slot is settled once: with the value it returned, with its exception, or with broken_pipe if the awaiting frame is destroyed; no other slot changes |
| RttLayout.AlignUpRounds | header/actor-zeta/detail/rtt.hpp:38-40 | on 64-bit words the mask computes the least multiple of a power of two, as long as the sum does not wrap |
| RttLayout.GetSizeIsEnd | header/actor-zeta/detail/rtt.hpp:47-55 | the size reserved is where the last object's compile-time slot ends |
| RttLayout.PlacedExactly | header/actor-zeta/detail/rtt.hpp:102-125 | the run-time offsets are the compile-time ones if and only if everything fits and the block's address is a multiple of every alignment |
| RttLayout.FailsOnlyForSpace | header/actor-zeta/detail/rtt.hpp:102-115 | on a suitable block `force_align` fails exactly when the objects do not fit |
| RttLayout.SlotsApart | header/actor-zeta/detail/rtt.hpp:117-125 | wherever the block lies, what is placed is aligned, in order, disjoint and within the capacity |
| RttLayout.ConstructedExactly | header/actor-zeta/detail/rtt.hpp:143-177 | on a suitable block the constructor completes if and only if the decayed arguments end no later than the declared ones |
| RttLayout.PlainArgumentsFit | header/actor-zeta/detail/rtt.hpp:143-177 | arguments that do not decay land on the compile-time offsets if and only if the block suits them |
| RttLayout.ArrayArgumentAborts | header/actor-zeta/detail/rtt.hpp:159-171 | a three-byte string literal aborts the constructor |
| Rtts.TableApart | header/actor-zeta/detail/rtt.hpp:159-169 | the table of entries lies behind every object, ends where the block ends, and is aligned on a suitable block |
| Rtts.Rtt.Build | header/actor-zeta/detail/rtt.hpp:143-177 | aborts exactly when the layout says so; else the objects live at the computed addresses of one block of the exact size |
| Rtts.Rtt.PushBackNoRealloc | header/actor-zeta/detail/rtt.hpp:117-125 | constructs one object at the aligned offset and lists it, or finds no space |
| Rtts.Rtt.Clear | header/actor-zeta/detail/rtt.hpp:81-100 | destroys each object once, last first, and gives back the block with the byte count it was allocated with |
| Rtts.Rtt.MoveFrom | header/actor-zeta/detail/rtt.hpp:194-211 | takes the block and its objects; the other pack keeps nothing to destroy |
| Rtts.Rtt.MoveAssign | header/actor-zeta/detail/rtt.hpp:253-282 | destroys what it held, once and in reverse, then takes over the other; nothing on itself |

## Assumptions

- Atomic operations are sequentially consistent; weak compare-exchanges may fail spuriously.
- Other threads act between atomic operations through methods known only by their contracts
  (`Interfere`, `InterfereWithDestructor`, `OthersAct`, `PushersAct`, `WorkersAct`, `ConsumerActs`,
  `ProducerActs`, `ProducerKeepsTaken`, `SendersPush`): any run of the machine that leaves this thread alone, and the behavior to whoever runs the actor.
- A failed assertion or an abort ends the run: methods return `Aborted`, `Refused` or `false`.
- Drivers honour verdicts: they enqueue on `needs_sched` and re-enqueue on `resume`. A `Poke` action is a
  call of `resume` from outside the scheduler.
- An actor's inbox closes only in its mailbox's destructor, after the actor's destructor.
- Object sizes are positive and the reserved size leaves room for one rounding below 2^64.

## Left out

- Weak memory orders: the model is sequentially consistent.
- Backoff, sleeping, yielding and the drain's time-out: a bound on the number of waits stands for them.
- Rules on exhausted retries: after 999 failed exchanges on the state word the model aborts, as the code does;
  the inbox and the scheduler take the bound as a parameter where the code would go on.
- Schedulers.Scheduler.Run: bounded in turns and waits, because the source's loop is endless.
- Mutexes and condition variables: a critical section is one step, a wait is a guard.
- `result_storage` moves and the debug flag `was_moved_from_`: a shared state never moves its storage.
- Exceptions and error codes: an exception is an error outcome, and values are integers.
- Messages in the actor's machine are counts; their order and contents are in `Mailboxes` and `MessageSlots`.
- Mailboxes.Mailbox.PushBack: one step here; the loop of compare-exchanges is in `LifoInboxes`.
- `push_front` of the mailbox: it passes a raw pointer where an owning one is needed, and nothing calls it.
- AwaitChains.Coroutine.RunUserCode: user code is any finite sequence of awaits, calls, dropped futures and returns, with `fuel` bounding its length; a method's future kept for later is not carried across a suspension of its caller.
- Coroutines driven by hand and custom awaitables: caller-owned protocols.
- Rtts.Rtt.Build: a constructor of an argument that throws is not modelled.
- What a state that was settled twice does to its memory: `MessageSlots` counts the settlements, `FutureMachine` has one producer exit.
- Template checks (`dispatch_traits`, `callable_trait`, promise concepts), `intrusive_ptr`, `spawn`, `address_t`: easy members.
