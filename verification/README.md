# Priority queues, a mutex, a semaphore and their wake-up cell

A model of five connected pieces of the crate, and proofs about them:

- **The wake-up cell** (`src/waiter.rs`). One word packs the address of a waker and the flags
  `HAS_LOCK`, `CAN_DROP` and `WANTS_EVICT`. A notifier, of which the queue lock lets only one run at a
  time, races with the owner of a future who polls, cancels and starts again. `Waiter.dfy` is the state
  machine, one step for each atomic instruction and each access to the waker's storage; `WaiterCell.dfy`
  is the cell on a 64-bit word, one method for each instruction, and every method takes one step of the
  machine. `WaiterRuns.dfy` tells flags and answers from the history of a run.
- **The arena queue** (`src/queue/arena.rs`). A sorted list threaded through a growable array whose size
  is a power of two. `ArenaQueue.dfy` is a class over that array with probing, insertion from a hint,
  unlinking and repositioning, single- and dual-link; a ghost sequence says what the list is.
- **The box queue** (`src/queue/boxed.rs`). The list that walks from its head. `BoxQueue.dfy` is a class
  over linked nodes, single- and dual-link. `QueueSpec.dfy` says what queues do to the sequence of their
  entries, and `QueueRuns.dfy` says what whole runs of the two leave behind, and when they agree.
- **The mutex** (`src/mutex.rs`). `Mutex.dfy` is the state machine and what holds in all its runs,
  `MutexRuns.dfy` what each operation changes and who has been asked to leave; `MutexOnArena.dfy` is the
  class over the arena queue.
- **The semaphore** (`src/semaphore.rs`), in the three feature sets that compile: neither `evict` nor
  `semaphore-total`, `evict`, and both. `Semaphore.dfy` has the state and what each critical section does
  to it; `SemaphoreActivation.dfy` compares the walk of `activate_waiters`, which moves entries about
  while it walks, with a greedy reference on the list of waiters, and `SemaphoreTurns.dfy` says whom that
  reference serves; `SemaphoreSteps.dfy` has the invariant; `SemaphoreSums.dfy` and
  `SemaphoreFamilies.dfy` what is conserved; `SemaphoreRuns.dfy` what holds over runs, and
  `SemaphoreEffects.dfy` what each operation does to each entry; `SemaphoreService.dfy` and
  `SemaphoreArrivals.dfy` who is served before whom, `SemaphoreEviction.dfy` who has been asked to give
  way, and `SemaphoreOverlooked.dfy` whether anybody waits whom a walk would serve; `SemaphoreCases.dfy`
  has runs in which an expectation fails; and `SemaphoreOnArena.dfy` is the class over the arena queue.

`Orders.dfy` has the priority orders and the laws of the `Priority` trait, `Masks.dfy` the bit masks.

A handle is the index of a slot or a node; an entry is a handle and the data filed under it. The laws of
the `Priority` trait are written out in `Orders.Lawful`. `At` holds the places at which a queue may file a
new entry: between two neighbours, or straight after an entry that it ties with. Orders for which a new
entry never ties leave one place only. A run names entries by tickets, numbered as they are enqueued. A
waiter is flagged if it has been told that it is to be evicted, and only with `semaphore-total` does the
walk of `activate_waiters` pass over one that is. In the semaphore `raw` is the `count` field with its tag
bit, and `Count` is the number without it.

## Where the code and its documentation differ

- `semaphore-total` without `evict` does not compile: `notify_oversized_waiters` calls `Waiter::evict`,
  which exists only with `evict` (`src/waiter.rs:104-108`, `src/semaphore.rs:175-188`).
- The search for the first waiter is said to skip waiters to be evicted; under `semaphore-total` it skips
  those that are not (`src/semaphore.rs:695-699`). `AtOnceOvertakes` says exactly what that lets overtake,
  and `LowPriorityOvertakes` is a run in which it happens.
- `merge` is documented to panic when a guard would hold too many permits; it returns an error, and the
  guard it was given is dropped on the way out (`src/semaphore.rs:454-478`). `SemaphoresOnArena.Semaphore.Merge`
  says when, and `MergeFails` is a run.
- A count of zero is said to be refused; only counts that are too large are (`src/semaphore.rs:256-259`,
  `src/semaphore.rs:781-786`). A request for no permits can be left waiting: `RequestForNothingStranded`
  is a run, `StepStrands` says exactly which steps do it, and `NobodyWaitsInVain` that it does not happen
  if all requests ask for something.
- `MutexWaiter::compare_new` does not agree with `compare` as the trait demands (`src/priority.rs:27-28`,
  `src/mutex.rs:48-62`). `AgreesUnlessOutranked` says for which pairs, and `MutexOrderLaws` that only an
  order with a single priority is spared. The mutex is therefore proved without that law.
- `FIFO` is documented to keep smaller requests from passing larger ones of their priority
  (`src/semaphore.rs:53-58`, `src/semaphore.rs:545-548`). It does so for requests that stand in line
  (`LineKeepsArrivals`, `ServedByArrival`), but a request that fits is granted at once if it only ties with
  the first waiter: `AtOncePassesEqual` says exactly when it then passes one of its own priority, and
  `LaterRequestPassesUnderFifo` is a run in which it does.
- Under `semaphore-total` flagged waiters that do not fit are to hold nobody up (`src/semaphore.rs:151-163`,
  `src/semaphore.rs:695-699`). But a new request does wait behind them, the drop of a waiter further back
  does not walk, and neither does a lowered total, so that somebody can be left waiting whom a walk would
  serve. `StepOverlooks` has the exact condition for every operation; `NewRequestMissed`,
  `DropMissesSomebody` and `LoweredTotalMisses` are runs.
- CAN_DROP is documented to be clear only while the notifier may read the storage and to be set again by
  it. It can also be set by the owner, who publishes a new waker before a notifier that found none has
  restored the bit: `CanDropExactly` states both cases, `CanDropSetEarly` is such a run.
- A split makes a guard that nobody asks to give way, even if a waiter outranks it: `SplitCovers`, and the
  run `SplitGuardIsNotAsked`. With `semaphore-total` somebody outranked can also be served by a walk that
  passes over a flagged waiter, as in the run `WalkServesOutranked`, or at once, as in
  `LowPriorityOvertakes`: `StepCovers` has the exact condition for every operation.
- The single-link box queue moves a head that ties with its successor after an update; the other three
  queues leave it: `SingleLinkBoxDiffers`, and the instance `TiedHeadMoves`.
- `emplace` takes a reference to the data of a slot before it tests whether the slot is free
  (`src/queue/arena.rs:325`); the model reads the data after the test.

## Model

| member | source | states |
|---|---|---|
| Orders.HighestFirstLaws | src/priority.rs:43-52 | every `Ord` type, that is every total comparison, keeps the laws of the trait, and queued entries of one priority look alike to a new one |
| Orders.NumbersAreTotal | src/priority.rs:43-56 | numbers are such a type, and the larger number has the higher priority; so the runs below are runs of a lawful order |
| Orders.LowestFirstLaws | src/priority.rs:63-83 | every comparison comes out reversed, which keeps the laws |
| Orders.FifoLaws | src/priority.rs:90-110 | `FIFO` compares as the order inside does wherever that is no tie, keeps the laws and never ties; it favours the oldest entry if and only if the order inside never favours the newest on a tie |
| Orders.LifoLaws | src/priority.rs:126-147 | `LIFO` compares as the order inside does wherever that is no tie, keeps the laws and never ties; it favours the newest entry if and only if the order inside never favours the oldest on a tie |
| Orders.InnermostWrapperDecides | src/priority.rs:96-104 | in `FIFO<LIFO<P>>` and `LIFO<FIFO<P>>` the inner wrapper breaks every tie |
| Masks.MaskIsModulo | src/queue/arena.rs:319-332 | masking with a power of two less one is reduction modulo that power |
| Masks.MaskWraps | src/queue/arena.rs:331-332 | the masked step goes round the array slot by slot |
| Masks.TagBit | src/semaphore.rs:561-567 | below a power of two the bit above can be set by adding it and tested by comparing with it |
| QueueSpec.BoundaryIsWalk | src/queue/arena.rs:443-458 | a place found by looking at its two neighbours only is the place that the walk from the head finds |
| QueueSpec.AtIsWalk | src/queue/arena.rs:520-544 | for an order that never ties, every place a queue may choose is the place that the walk from the head finds |
| QueueSpec.SortedMakesPrefix | src/priority.rs:20-28 | in a sorted queue the entries a new one has to follow come before all that it may precede |
| QueueSpec.InsertKeepsSorted | src/queue.rs:15-35 | filing an entry at any place a queue may choose keeps the queue sorted by `compare` |
| QueueSpec.RemoveKeepsSorted | src/queue.rs:36-37 | removing an entry keeps the queue sorted |
| QueueSpec.UpdateKeepsOthers | src/queue.rs:63-66 | on all four queues `update_node` keeps the handle of the updated entry and the handles, data and relative order of all others |
| QueueSpec.UpdateKeepsSorted | src/queue/boxed.rs:205-283 | on all four queues, whatever the new priority, the queue is sorted after `update_node` |
| QueueSpec.InPlaceIsSorted | src/queue/arena.rs:614-635 | an updated entry that fits between its neighbours fits among all entries |
| QueueSpec.UpdateStaysOrRefiles | src/queue/arena.rs:611-635 | an updated entry stays where it is unless it is said to have changed and outranks its predecessor or is outranked by its successor; then it is filed where the walk from the head ends |
| QueueSpec.EagerStaysOrRefiles | src/queue/boxed.rs:241-255 | the same for the single-link box queue, where a head that ties with its successor is filed again too |
| QueueSpec.FitsIfSorted | src/queue.rs:63-66 | in a sorted queue an entry is moved only if it has to be: it stays if the queue is sorted with it where it is |
| ArenaQueues.SomeSlotFree | src/queue/arena.rs:515-520 | fewer entries than slots leave some slot free, so the probe that follows an expansion check ends |
| ArenaQueues.FiledIsThread | src/queue/arena.rs:460-462 | linking a filled slot in behind its predecessor threads the list through exactly one slot more |
| ArenaQueues.UnlinkedIsThread | src/queue/arena.rs:555-574 | linking the neighbours of an entry with each other threads the list through exactly that slot less |
| ArenaQueues.CopiedIsThread | src/queue/arena.rs:293-303 | a larger array with the old nodes in front and free slots behind holds the same list |
| ArenaQueues.OnlyPrevLinks | src/queue/arena.rs:365-378 | only the predecessor of an entry points to it, so the search of the single-link variant finds the right node |
| ArenaQueues.ArenaQueue.constructor | src/queue/arena.rs:94-104 | a new queue is valid and empty |
| ArenaQueues.ArenaQueue.GetByHandle | src/queue/arena.rs:582-585 | a live handle names the data filed under it |
| ArenaQueues.ArenaQueue.HeadHandle | src/queue/arena.rs:587-590 | the handle of the first entry, or none |
| ArenaQueues.ArenaQueue.GetNextHandle | src/queue/arena.rs:638-649 | the handle of the following entry, or none |
| ArenaQueues.ArenaQueue.Expand | src/queue/arena.rs:284-306 | the size becomes 4 or doubles, a slot is free, the list is unchanged and every handle stays good |
| ArenaQueues.ArenaQueue.Emplace | src/queue/arena.rs:314-361 | the probe ends at a free slot from any start; the hint, if any, is an entry the new one ranks below, or on a tie may follow directly |
| ArenaQueues.ArenaQueue.InsertNode | src/queue/arena.rs:410-463 | from any valid hint, the entry is filed between neighbours that admit it, past everything that must precede it |
| ArenaQueues.ArenaQueue.Enqueue | src/queue/arena.rs:515-547 | the new handle is fresh, the entry is filed at a permitted place, nothing else changes, the array invariant holds |
| ArenaQueues.ArenaQueue.PrevFor | src/queue/arena.rs:365-378 | the predecessor, by its link or by search |
| ArenaQueues.ArenaQueue.FreeSlot | src/queue/arena.rs:551-562 | the slot becomes free and the next probe starts there; with `prev` links the successor skips it |
| ArenaQueues.ArenaQueue.Dequeue | src/queue/arena.rs:550-580 | exactly this entry goes; returns the data of its predecessor and the handle of its successor |
| ArenaQueues.ArenaQueue.Detach | src/queue/arena.rs:389-403 | the entry leaves the list and its slot keeps its data |
| ArenaQueues.ArenaQueue.Reposition | src/queue/arena.rs:382-407 | whichever end the search starts from, the entry is filed where the walk from the head would file it |
| ArenaQueues.ArenaQueue.PrevHandle | src/queue/arena.rs:611-612 | the handle of the predecessor, or none for the head, in both variants |
| ArenaQueues.ArenaQueue.IsMisplaced | src/queue/arena.rs:614-635 | an updated entry moves if and only if it outranks its predecessor or is outranked by its successor, and not on a tie |
| ArenaQueues.ArenaQueue.UpdateNode | src/queue/arena.rs:600-636 | the queue becomes what `QueueSpec.Update` says: in place if it still fits, refiled if not |
| BoxQueues.BoxQueue.Insert | src/queue/boxed.rs:51-91 | the entry is filed before the first one it may precede |
| BoxQueues.BoxQueue.Enqueue | src/queue/boxed.rs:124-128 | the same, with a fresh node |
| BoxQueues.BoxQueue.FindPrev | src/queue/boxed.rs:185-194 | the search from the head finds the predecessor |
| BoxQueues.BoxQueue.Unlink | src/queue/boxed.rs:226-235 | exactly this entry goes and its node is detached |
| BoxQueues.BoxQueue.Dequeue | src/queue/boxed.rs:154-198 | the same, with the data of the predecessor and the successor |
| BoxQueues.BoxQueue.Stays | src/queue/boxed.rs:212-265 | an updated entry stays if and only if it does not outrank its predecessor and is not outranked by its successor, except for the tied head of the single-link variant |
| BoxQueues.BoxQueue.UpdateNode | src/queue/boxed.rs:205-283 | the queue becomes what `QueueSpec.UpdateBy` says, eager for the single-link variant |
| QueueRuns.RunsListEntries | src/queue.rs:15-66 | for every lawful order, on every queue and wherever among the permitted places it files: after any run the queue is sorted and holds under each ticket, once, what the run has filed under it as last updated, and nothing else |
| QueueRuns.LiveTickets | src/queue.rs:15-66 | something is filed under a ticket if and only if the ticket has been given out and not been dequeued since |
| QueueRuns.PlacesAreForced | src/queue/arena.rs:515-547 | for orders that never tie the queue has no choice: all runs of the same operations agree |
| QueueRuns.StepArena | src/queue/arena.rs:510-650 | for every lawful order, every operation on the arena is a step of the reference at a permitted place, keeps the array invariant and leaves every handle naming its entry |
| QueueRuns.RunArena | src/queue/arena.rs:510-650 | for every lawful order, after any run on a single- or dual-link arena the array is valid, the queue is sorted, the live handles are those enqueued and not dequeued since, and each names its data; the sequence is that of the reference at permitted places |
| QueueRuns.StepBox | src/queue/boxed.rs:120-297 | for every order, the same of every operation on a single- or dual-link box queue |
| QueueRuns.RunBox | src/queue/boxed.rs:120-297 | for every lawful order, the same of any run on a single- or dual-link box queue |
| QueueRuns.RunBoth | src/queue/arena.rs:515-547 | for orders that never tie, after any run the arena, single- or dual-link, and the dual-link box queue hold the same data in the same order |
| QueueSpec.SingleLinkBoxDiffers | src/queue/boxed.rs:241-255 | the single-link box queue differs on an update if and only if it is of a head that ties with its successor and as a new entry would go behind it |
| QueueSpec.TiedHeadMoves | src/queue/boxed.rs:241-255 | two entries and an update under `FIFO` on which it differs |
| Waiters.StepKeepsInv | src/waiter.rs:59-184 | every step of either party keeps the ownership of the storage, the meaning of CAN_DROP and the whereabouts of wakers |
| Waiters.RunKeepsInv | src/waiter.rs:59-230 | and so does every interleaving |
| Waiters.ConsumedExactlyOnce | src/waiter.rs:60-81 | each waker ever stored has been woken or dropped once, or is still in one place |
| Waiters.StorageSafety | src/waiter.rs:112-141 | no notifier reads storage that the owner is about to write, publish, drop or free; no waker is overwritten or freed undropped |
| Waiters.CanDropExactly | src/waiter.rs:20-28 | CAN_DROP is clear exactly between the notifier's first and last instruction on the word, unless the owner has published since |
| Waiters.CanDropSetEarly | src/waiter.rs:69-77 | the exception happens |
| Waiters.NoLostWakeUp | src/waiter.rs:84-97 | if the last poll was pending and a flag it waits for is set, its waker has been woken, or the notifier's own remaining steps wake it |
| Waiters.WakerStaysRegistered | src/waiter.rs:166-177 | after a pending poll the waker is registered or will be woken |
| Waiters.ReadyHasAFlag | src/waiter.rs:161-183 | a poll is ready only with a flag it waited for, and all the flags it has seen stay set |
| Waiters.SpinningEnds | src/waiter.rs:134-138 | an owner who spins waits for a notifier between two instructions, and stops once that notifier is done |
| Waiters.SpinningIsNotProlonged | src/waiter.rs:136-138 | later notifiers do not make the spin longer |
| Waiters.OwnerProgress | src/waiter.rs:155-184 | with no notifier about, every step brings a poll or a drop nearer its end |
| WaiterRuns.FlagsAreThoseAdded | src/waiter.rs:84-108 | in every run a flag is set if and only if it has been added, or HAS_LOCK was there from the start |
| WaiterRuns.OneWakeEach | src/waiter.rs:60-97 | each flag added wakes at most one waker, and nothing else wakes any |
| WaiterRuns.OwnerAnswers | src/waiter.rs:189-230 | a future that has been made rests until it is polled, a poll ends with an answer, a cancelled future goes, and a future waits for what it was made for |
| WaiterRuns.PollAnswers | src/waiter.rs:154-184 | a poll is ready if a flag it waits for was set when it began, and reports every flag set by then; it leaves no waker behind if and only if it has seen all that it waits for; if it is pending its waker is new |
| WaiterCells.PackRoundTrip | src/waiter.rs:29-45 | address and flags can be packed into a word and unpacked without loss, in both directions |
| WaiterCells.WaiterCell.ClearFetchAnd | src/waiter.rs:112-117 | the first instruction of `clear_waker` is the owner's step |
| WaiterCells.WaiterCell.SpinLoad | src/waiter.rs:134-138 | a load of the spin loop is the owner's step |
| WaiterCells.WaiterCell.DropInPlace | src/waiter.rs:122-131 | dropping the stored waker is the owner's step, and there is one |
| WaiterCells.WaiterCell.WriteWaker | src/waiter.rs:166-166 | writing the waker is the owner's step; the storage is empty and nobody reads it |
| WaiterCells.WaiterCell.PublishFetchOr | src/waiter.rs:168-177 | publishing the address is the owner's step |
| WaiterCells.WaiterCell.Free | src/waiter.rs:213-219 | the future goes only when no word and no notifier points to its storage |
| WaiterCells.WaiterCell.StartFetchOr | src/waiter.rs:84-102 | `start` up to `notify` is the notifier's step, and sets HAS_LOCK and no other flag |
| WaiterCells.WaiterCell.EvictFetchOr | src/waiter.rs:84-108 | `evict` up to `notify` is the notifier's step, and sets WANTS_EVICT and no other flag |
| WaiterCells.WaiterCell.NotifyFetchAnd | src/waiter.rs:60-65 | taking the address is the notifier's step |
| WaiterCells.WaiterCell.ReadWaker | src/waiter.rs:66-67 | reading the waker is the notifier's step; the storage is alive and holds one |
| WaiterCells.WaiterCell.RestoreFetchOr | src/waiter.rs:69-77 | restoring CAN_DROP is the notifier's step |
| WaiterCells.WaiterCell.Wake | src/waiter.rs:79-81 | waking the waker read is the notifier's last step |
| Mutexes.StepKeepsInv | src/mutex.rs:259-378 | each operation keeps one holder at the head, waiters by priority and arrival, and an outranked holder asked |
| Mutexes.RunKeepsInv | src/mutex.rs:259-378 | and so does every run |
| Mutexes.MutualExclusion | src/mutex.rs:259-276 | in every run a queue that is not empty has exactly one entry with the lock, its head |
| Mutexes.NotBeforeHolder | src/mutex.rs:54-61 | wherever a queue files a new request, it is behind the holder |
| Mutexes.LockKeepsHolder | src/mutex.rs:343-373 | a later request waits and leaves the holder where it is |
| Mutexes.HandoverOrder | src/mutex.rs:261-275 | the lock goes to a waiter whom nobody outranks; among equals to the oldest under `FIFO` and the newest under `LIFO`; nobody else is touched |
| Mutexes.CancelKeepsOthers | src/mutex.rs:261-275 | dropping a request that waits only takes it out |
| Mutexes.EvictionCoverage | src/mutex.rs:358-367 | in every run a holder whom a waiter outranks has been asked to leave, also after handovers and cancellations |
| Mutexes.PlaceIsUnique | src/queue/arena.rs:338-350 | although the order of the mutex breaks the trait's law, orders that never tie leave one place for a new request on every queue |
| Mutexes.AgreesUnlessOutranked | src/mutex.rs:48-62 | `compare_new` disagrees with a `compare` that is no tie if and only if the queued entry has the lock and the new one outranks it |
| Mutexes.MutexOrderLaws | src/mutex.rs:39-62 | the order of the mutex keeps the laws of the trait if and only if all priorities are equal |
| MutexRuns.FreeIsTaken | src/mutex.rs:314-352 | a request on a mutex that nobody holds is served at once, and `try_lock` otherwise changes nothing |
| MutexRuns.LockEffect | src/mutex.rs:343-373 | a request on a held mutex waits behind the holder, unasked; the holder is asked to leave if and only if the request outranks it and there is eviction, and nobody else is touched |
| MutexRuns.DropEffect | src/mutex.rs:259-276 | an entry that goes leaves the others as they are, except that the lock goes from the holder to the next in line |
| MutexRuns.AskedExactly | src/mutex.rs:358-367 | in every run an entry has been asked to leave if and only if some request outranked it while it had the lock |
| MutexRuns.WaitersAreNotAsked | src/mutex.rs:358-367 | and nobody who waits has |
| MutexesOnArena.Mutex.TryLock | src/mutex.rs:314-332 | succeeds if and only if the queue is empty, as the step of the machine |
| MutexesOnArena.Mutex.Lock | src/mutex.rs:343-373 | its critical section is the step of the machine |
| MutexesOnArena.Mutex.DropGuard | src/mutex.rs:259-276 | its critical section is the step of the machine, for holders and waiters |
| Semaphores.TagIsABit | src/semaphore.rs:35-53 | the masks clear, test and set the tag of a 64-bit count |
| Semaphores.SemOrderLaws | src/semaphore.rs:60-98 | the order of the queue keeps the laws of the trait, and decides all ties if the priority does |
| Semaphores.SemOrderRanks | src/semaphore.rs:60-98 | holders rank above waiters, then the priority decides, and a tie that it leaves open goes to the waiter that asks for less |
| SemaphoreActivation.GreedyAccounts | src/semaphore.rs:137-172 | in the reference every waiter is served or left, and the permits handed out are those asked for |
| SemaphoreActivation.GreedyStops | src/semaphore.rs:151-163 | it passes over only waiters to be evicted that do not fit, and stops at the first other one that does not |
| SemaphoreActivation.GreedyIsPrefix | src/semaphore.rs:137-172 | with nobody to be evicted it serves the longest run from the front that fits |
| SemaphoreActivation.GrantPlaces | src/semaphore.rs:165-170 | granting moves the entry among the holders and leaves everything behind it where it is, so the successor noted before is right |
| SemaphoreActivation.GrantOnSingleLinkBox | src/queue/boxed.rs:241-255 | on the single-link box queue too: a grant is never one of the updates on which it differs |
| SemaphoreActivation.ActivatePlaces | src/semaphore.rs:137-172 | the walk that moves entries about leaves the waiters that the reference leaves, in the same order |
| SemaphoreActivation.ActivateAddsHolders | src/semaphore.rs:137-172 | its holders are those from before and exactly those that the reference serves |
| SemaphoreActivation.ActivateIsGreedy | src/semaphore.rs:137-172 | from any place among the holders or at the first waiter the walk grants exactly what the reference grants, keeps the order, the books and the flags, and leaves nobody first in line who fits |
| SemaphoreActivation.GreedyServesInOrder | src/semaphore.rs:137-172 | whoever is served stood before whoever is left, unless the one left is to be evicted and asks for more than is left over |
| SemaphoreActivation.ActivateDoesNotOvertake | src/semaphore.rs:138-165 | in every configuration, somebody left outranks somebody served only if it is passed over, which takes `semaphore-total` and a flag, and asks for more than is left over |
| SemaphoreTurns.GrantedIsServed | src/semaphore.rs:137-172 | whoever is granted permits fits when its turn comes, and everybody ahead fits in its turn or is flagged |
| SemaphoreTurns.ServedIsGranted | src/semaphore.rs:137-172 | and each waiter of whom that is true is granted permits |
| SemaphoreTurns.FirstUnfitIs | src/semaphore.rs:137-172 | the first waiter that does not fit in its turn is the one with which the requests from the front add up to more than is available |
| SemaphoreTurns.FirstUnfitIsLeft | src/semaphore.rs:151-163 | it is the first that is left, and somebody behind it is served only if it is flagged |
| SemaphoreSteps.AcquireStrandsNobody | src/semaphore.rs:674-738 | after a request, granted or not, whoever is first in line cannot be served |
| SemaphoreSteps.AtOnceDoesNotOvertake | src/semaphore.rs:680-704 | without `semaphore-total` a request granted at once is outranked by no waiter |
| SemaphoreSteps.AtOnceOvertakes | src/semaphore.rs:695-704 | with it, a request granted at once overtakes somebody if and only if the first waiter outranks it, and that one is not flagged |
| SemaphoreEffects.GrantedAtOnce | src/semaphore.rs:680-704 | a request is granted at once if and only if it fits and no waiter outranks it, of those that are flagged under `semaphore-total` |
| SemaphoreSteps.CancelKeepsInv | src/semaphore.rs:246-276 | the drop of a request, served or not, keeps the invariant with its conditional walk |
| SemaphoreSteps.ReleaseKeepsInv | src/semaphore.rs:493-519 | the drop of a permit keeps the invariant |
| SemaphoreSteps.NotifyKeeps | src/semaphore.rs:175-188 | flags exactly the waiters that ask for more than the lowered total, and no holder, wherever among the holders the scan starts |
| SemaphoreSteps.ForgetKeepsInv | src/semaphore.rs:317-338 | scanning from the successor of the forgotten guard is enough, and the total does not underflow |
| SemaphoreSteps.ForgetPermitsKeepsInv | src/semaphore.rs:983-999 | forgetting available permits keeps the invariant |
| SemaphoreSteps.AddPermitsKeepsInv | src/semaphore.rs:954-972 | adding permits keeps the invariant |
| SemaphoreSteps.SplitCounts | src/semaphore.rs:379-386 | subtracting from the raw count never borrows from the tag, and neither guard is left empty |
| SemaphoreSteps.MergeCounts | src/semaphore.rs:468-473 | adding to the raw count never carries into the tag |
| SemaphoreSteps.SplitKeepsInv | src/semaphore.rs:364-406 | a split, with any priority for the new guard, keeps the invariant |
| SemaphoreSteps.MergeKeepsInv | src/semaphore.rs:458-487 | a merge keeps the invariant, also when it fails |
| SemaphoreRuns.StepKeepsInv | src/semaphore.rs:137-1000 | every operation, in every configuration, keeps the order, the books, the flags and the line |
| SemaphoreRuns.RunKeepsInv | src/semaphore.rs:137-1000 | and so does every run |
| SemaphoreRuns.HoldersThenWaiters | src/semaphore.rs:119-133 | in every run holders come before waiters, both by priority |
| SemaphoreRuns.NobodyIsStranded | src/semaphore.rs:251-276 | in every run whoever is first in line, flagged or not, asks for more than is available, or asks for nothing while nothing is available |
| SemaphoreRuns.TotalIsExact | src/semaphore.rs:498-500 | in every run the total is what is available and what is held, it fits in a word, and any guard's permits can go back without overflow |
| SemaphoreRuns.NeverUndefined | src/semaphore.rs:992-993 | the unchecked hint is true and no subtraction from the total underflows |
| SemaphoreRuns.AddingIsExact | src/semaphore.rs:954-972 | permits are refused if and only if the total, or without `semaphore-total` what is available, would overflow; then nothing changes, and otherwise there are so many more |
| SemaphoreRuns.RunBalances | src/semaphore.rs:244-519 | in every configuration and over every run the permits there are change only by those added, forgotten, or lost to an overflow |
| SemaphoreRuns.OversizedAreFlagged | src/semaphore.rs:865-914 | in every run a waiter from `acquire_within_total` asking for more than the total is flagged, and every flagged waiter came from there |
| SemaphoreRuns.HoldersAreSpared | src/semaphore.rs:177-188 | forgetting permits leaves every other guard exactly as it was |
| SemaphoreEffects.StepTraces | src/semaphore.rs:137-1000 | after any operation each entry is the request or the part that it has filed, or one that was there with its handle, priority and permits; its count differs only for the guards divided or joined, and its mark only if the operation tells it to give way |
| SemaphoreEffects.StepKeepsEntry | src/semaphore.rs:137-1000 | and each entry that was there is there still, except the one that the operation is to take out |
| SemaphoreEffects.AskedExactly | src/semaphore.rs:175-188 | in every run an entry has been told to give way if and only if, since it was filed, a request has outranked it while it held permits, or the total has been lowered below what it asked for while it waited |
| SemaphoreService.NobodyIsOvertaken | src/semaphore.rs:680-704 | in every configuration and every step, nobody is left waiting who outranks somebody the step has served, except, with `semaphore-total`, a flagged waiter passed over that does not fit, or behind an unflagged first waiter when a request is granted at once |
| SemaphoreEviction.OutrankedInAdvance | src/semaphore.rs:137-172 | the walk leaves somebody unasked served and outranked if and only if the first waiter that does not fit in its turn is flagged and somebody unasked behind it, whom it outranks, fits in his turn with everybody between who is not flagged |
| SemaphoreEviction.FirstUnderTells | src/semaphore.rs:137-172 | for which one waiter need be looked at: the first unasked one that it outranks |
| SemaphoreEviction.ActivateCovers | src/semaphore.rs:137-172 | in every configuration, if every outranked holder has been asked to give way, the walk breaks that exactly when this is so of the line before it |
| SemaphoreEviction.AcquireCovers | src/semaphore.rs:680-735 | with `evict`, a request keeps it if and only if it is not granted at once under a first waiter that outranks it |
| SemaphoreEviction.SplitCovers | src/semaphore.rs:391-405 | a split keeps it if and only if the first waiter does not outrank the new guard |
| SemaphoreEviction.StepCovers | src/semaphore.rs:137-1000 | for every operation of every configuration with `evict`, exactly when it breaks that: a request or a new guard under a first waiter that outranks it, or a walk over such a line |
| SemaphoreEviction.OutrankedAreAsked | src/semaphore.rs:680-735 | with `evict`, with or without `semaphore-total`, in every run of which no step is one of those that break it, a holder whom a waiter outranks has been asked |
| SemaphoreEviction.UnflaggedStepsExposeNobody | src/semaphore.rs:137-1000 | with `semaphore-total` too: while nobody in line is flagged no walk breaks it |
| SemaphoreEviction.OnlySplitsExpose | src/semaphore.rs:137-1000 | without `semaphore-total` only a split breaks it |
| SemaphoreEviction.OutrankedAreAlwaysAsked | src/semaphore.rs:680-735 | so without `semaphore-total` it holds in every run without splits |
| SemaphoreArrivals.StepKeepsLine | src/semaphore.rs:137-1000 | two requests that wait after any step stood in line before it in the same order |
| SemaphoreArrivals.PlaceAmongEquals | src/semaphore.rs:75-97 | a new request goes behind all that wait with its priority under `FIFO`, and before them under `LIFO` |
| SemaphoreArrivals.LineKeepsArrivals | src/semaphore.rs:53-58 | in every run requests of one priority wait in their order of arrival under `FIFO`, against it under `LIFO` |
| SemaphoreArrivals.SmallestFirst | src/semaphore.rs:80-97 | in every run under an order that leaves ties open, requests of one priority wait by what they ask for, the smallest first |
| SemaphoreService.ServedFromFront | src/semaphore.rs:137-172 | in every configuration, whoever the walk serves stood before everybody it leaves, except flagged waiters passed over that do not fit |
| SemaphoreService.StepServesFromFront | src/semaphore.rs:137-1000 | the same of every step that serves somebody from the line |
| SemaphoreArrivals.ServedByArrival | src/semaphore.rs:545-548 | in every configuration and run, of two requests of one priority in line the first to arrive is served first under `FIFO`, last under `LIFO`, unless the other is a flagged one passed over that does not fit |
| SemaphoreArrivals.AtOncePassesEqual | src/semaphore.rs:702-704 | in every configuration, a request granted at once leaves one of its own priority waiting if and only if it ties with the first waiter that does not outrank it, whatever the order says of ties; without `semaphore-total` that is the first waiter of all |
| SemaphoreCases.LaterRequestPassesUnderFifo | src/semaphore.rs:702-704 | a run in which that happens under `FIFO` |
| SemaphoreService.CancelServesEverybody | src/semaphore.rs:256-276 | the conditional walk from the successor comes to the same as a walk over the whole queue if and only if the dropped request held permits, or was first in line with permits available, or the whole walk would serve nobody |
| SemaphoreService.WalkIsIdle | src/semaphore.rs:137-172 | a walk over the whole queue changes nothing if and only if the first waiter it would not pass over does not fit |
| SemaphoreService.CancelLeavesNobody | src/semaphore.rs:256-276 | so if all ask for something and, when somebody behind is dropped, the first waiter is not flagged, nobody is missed |
| SemaphoreOverlooked.WalkOverlooksNobody | src/semaphore.rs:137-172 | after the walk, from wherever among the holders it starts, nobody waits who fits and has only flagged waiters ahead of him |
| SemaphoreOverlooked.OverlookedWouldBeServed | src/semaphore.rs:137-172 | nobody waits like that if and only if a walk over the whole queue would change nothing |
| SemaphoreOverlooked.OverlookedIsFirst | src/semaphore.rs:137-172 | without `semaphore-total` that is about the first in line only |
| SemaphoreOverlooked.OnlyStopperUnblocks | src/semaphore.rs:137-172 | if nobody is overlooked, then with an entry less, fewer permits and a lower total somebody is, if and only if the first unflagged waiter is that entry or is flagged for the lower total, and somebody behind it fits with only flagged waiters between |
| SemaphoreOverlooked.StepOverlooks | src/semaphore.rs:137-1000 | for every operation of every configuration, exactly when it comes to overlook somebody: a request fits and waits before the first unflagged waiter; or that waiter is dropped without a walk, or flagged because the total is lowered, and somebody behind it fits with only flagged waiters between |
| SemaphoreOverlooked.NobodyIsOverlooked | src/semaphore.rs:137-1000 | so over every run without such a step, whoever waits does not fit or waits for somebody ahead who is not flagged |
| SemaphoreCases.CancelStrands | src/semaphore.rs:256-276 | if the first in line does not fit, the drop of a request leaves somebody first in line who does if and only if it was first, nothing is available, and the next asks for nothing |
| SemaphoreCases.StepStrands | src/semaphore.rs:137-1000 | and no other operation ever does, in any configuration |
| SemaphoreCases.RequestForNothingStranded | src/semaphore.rs:256-276 | a run in which that happens |
| SemaphoreCases.LowPriorityOvertakes | src/semaphore.rs:695-704 | a run with `semaphore-total` in which a request of low priority overtakes, and so holds permits unasked under a waiter that outranks it |
| SemaphoreCases.NewRequestMissed | src/semaphore.rs:680-704 | a run with `semaphore-total` in which a new request that a walk would serve is left waiting |
| SemaphoreCases.DropMissesSomebody | src/semaphore.rs:256-276 | a run with `semaphore-total` in which the drop of a request leaves such a waiter |
| SemaphoreCases.LoweredTotalMisses | src/semaphore.rs:317-338 | a run in which forgetting a guard does |
| SemaphoreCases.SplitGuardIsNotAsked | src/semaphore.rs:391-405 | a run with `evict` in which a guard asked to give way to a waiter is split and nobody asks the new guard |
| SemaphoreCases.WalkServesOutranked | src/semaphore.rs:151-163 | a run with `semaphore-total` in which the walk passes over a flagged waiter and serves somebody unasked whom it outranks |
| SemaphoreCases.MergeFails | src/semaphore.rs:458-487 | a run, in every configuration, in which a merge fails and the guard it was given gives its permits back |
| SemaphoreFamilies.NoEntryIsEmpty | src/semaphore.rs:364-486 | if all requests ask for something, no guard made by a split or a merge is empty |
| SemaphoreFamilies.NobodyWaitsInVain | src/semaphore.rs:251-276 | and then whoever is first in line, flagged or not, does not fit |
| SemaphoreFamilies.FamilyKeepsPermits | src/semaphore.rs:364-487 | over any run, whatever else happens, guards that are only split and merged among themselves hold together what they held at the start |
| SemaphoreFamilies.FamilyOfOne | src/semaphore.rs:364-487 | which for one guard is what it was granted |
| SemaphoresOnArena.GrantKeepsNext | src/semaphore.rs:143-170 | the handle noted before a grant is the right successor after it, so the suffix still to be walked shrinks |
| SemaphoresOnArena.FlagsCommute | src/semaphore.rs:706-735 | asking the holders before or after filing the request comes to the same |
| SemaphoresOnArena.Semaphore.ActivateWaiters | src/semaphore.rs:137-172 | the loop over handles ends and does what `Activate` says |
| SemaphoresOnArena.Semaphore.NotifyOversized | src/semaphore.rs:175-188 | the loop flags exactly the waiters that `NotifyFrom` says |
| SemaphoresOnArena.Semaphore.FirstWaiting | src/semaphore.rs:681-701 | the loop that looks for the first waiter asks every outranked holder on its way |
| SemaphoresOnArena.Semaphore.DoAcquire | src/semaphore.rs:674-738 | its effect is the step `Acquiring` of the machine |
| SemaphoresOnArena.Semaphore.AcquireMany | src/semaphore.rs:780-796 | the critical section files an untagged request |
| SemaphoresOnArena.Semaphore.AcquireWithinTotal | src/semaphore.rs:865-890 | refuses if and only if fewer permits exist than are asked for, and otherwise files a tagged request |
| SemaphoresOnArena.Semaphore.ReleasePermit | src/semaphore.rs:490-519 | its effect is the step `Releasing` |
| SemaphoresOnArena.Semaphore.CancelRequest | src/semaphore.rs:244-277 | its effect is the step `Cancelling` |
| SemaphoresOnArena.Semaphore.Forget | src/semaphore.rs:317-338 | its effect is the step `Forgetting` |
| SemaphoresOnArena.Semaphore.ForgetPermits | src/semaphore.rs:983-999 | its effect is the step `ForgettingPermits`; forgets as many as asked for, or all that are available if those are fewer, and returns how many |
| SemaphoresOnArena.Semaphore.TryAddPermits | src/semaphore.rs:954-972 | its effect is the step `AddingPermits`; refuses if and only if a word would overflow, and then changes nothing |
| SemaphoresOnArena.Semaphore.Split | src/semaphore.rs:364-452 | refuses if and only if the guard holds no more than is asked for, and is otherwise the step `Splitting` |
| SemaphoresOnArena.Semaphore.Merge | src/semaphore.rs:458-487 | its effect is the step `Merging`; fails if and only if a guard would hold too many permits |

## Left out

- Weak memory: the atomic instructions are sequentially consistent steps.
- The `RwLock` (`src/internal.rs`) is taken as given, so a critical section of the mutex or the semaphore
  is one step; the wake-ups that it causes are those of the cell, and flags are set in one go.
- Async runtime, `Context`, `Waker` and `Pin`: a waker is a number, and a poll is a sequence of steps.
- Byte offsets, layouts and raw allocation: slots are indices, with SENTINEL and UNALLOCATED as two values
  that are not indices. Queue `Drop`, deallocation and failing allocation.
- `ConstDefault` and `const_new`: the constant `ArenaQueue` has head 0, which is not the empty queue.
- The protected data and its `UnsafeCell`: mutual exclusion of guards is what is stated.
- The message of the panic when a permit is dropped without `semaphore-total` and the sum would overflow:
  the guard is gone and its permits with it. The drop of a request wraps around there, as it does without
  overflow checks.
- `split` and `split_with_priority` are one operation with a priority for the new guard. Panics on
  asserted arguments (`count > 0`, `count < MAX_PERMITS`) are preconditions; merging guards of two
  semaphores, `acquire_many`'s and `acquire_within_total`'s waiting, and the `_from` and `_default`
  wrappers only add easy members.
- The mutex and the semaphore on box queues: their machines allow every place a queue may choose, so what
  is proved about runs holds for them, with `GrantOnSingleLinkBox` for the single-link one; the classes are
  written over the arena queue only.
- Fairness between tasks that race for the `RwLock`.
- QueueRuns.RunBoth: for orders that leave ties open the two queues may choose different places among
  equals, and the single-link box queue moves tied heads, so equality of runs is stated for orders that
  never tie and without that variant. `RunArena` and `RunBox` hold for all lawful orders and variants.
- QueueRuns.RunArena: an update's closure reports a change at least whenever the priority changes, as
  `src/queue.rs:63-65` asks of it; so does QueueRuns.RunBox.
- SemaphoreService.NobodyIsOvertaken: leaves splits out, whose new guard takes its permits from another
  guard and not from those that are available.
- SemaphoreArrivals.ServedByArrival: is about steps that serve from the line; a request granted at once
  has not stood in it, and `AtOncePassesEqual` is about those.
