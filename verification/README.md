# A verified model of fjdispatchlite

fjdispatchlite is a small C++ library for message passing between objects: a
dispatcher that runs the tasks of each object on a growing pool of worker
threads, a mailbox in shared memory through which objects of several processes
notify one another, the fixed-size containers that live in that memory, and a
timer loop. This project models the five headers in which that happens and
proves what they promise. `dafny verify dfyconfig.toml` checks all of it.

## How the project is built

Each protocol is a transition system whose events are the critical sections of
the source, in any interleaving: `Mailboxes`, `Dispatch`, `Results`, `Timers`
and `Services`, which puts queue, workers and result table together. Runs are
sequences of states and events without a bound. Beside it stands the
imperative form, a class with the fields of the source whose methods keep its
loops and branches and are proved to take exactly the modelled step:
`SharedRegion`, `Dispatcher`, `TimerLoop`, `FixMap` and `FixVector`. The
theorems are about the steps, so they hold of what the methods do.

| file | content |
|---|---|
| Options.dfy, Bags.dfy | missing values; filters, counts and bags over sequences |
| FixVector.dfy, FixMap.dfy | the containers on their arrays |
| Mailbox.dfy | region, mails, slots, workers; the steps of the mailbox |
| MailOwnership.dfy | payload ownership and conservation, kept by every step |
| MailFanOut.dfy | the allocator and the exact effect of a notification |
| MailRuns.dfy | what follows over whole runs |
| MailSlots.dfy | which slot an allocation takes, its stamp, and until when it stays |
| MailLifecycle.dfy, MailLifeRuns.dfy | listener table, process counts, constructor and two-phase destructor |
| SharedRegion.dfy | the same steps as loops over the shared tables |
| MailLosses.dfy | which slots and registrations are lost, exactly when |
| MailDelivery.dfy | progress of the workers, and complete delivery |
| Dispatch.dfy, DispatchInvariants.dfy | the dispatcher and its invariants |
| DispatchRuns.dfy, DispatchDrain.dfy | exclusion, order, fairness, wake-ups; progress and completion |
| DispatchPool.dfy | the workers one by one: growth, sleep, work and shutdown |
| DispatchOverlap.dfy, DispatchOrder.dfy | when tasks posted in sequence can still overlap; completion order |
| Results.dfy, Service.dfy | handles and result table; the whole service |
| Dispatcher.dfy | the dispatcher as an object |
| Timer.dfy, TimerLateness.dfy | the timer loop; how late a timer can be |

## What the proofs found in the code

- `postQueue` with `isseq == false` makes a second turn for its object when it
  finds the object running, and later tasks posted as sequential can then overlap
  (`SequentialOverlap`). An object has at most one turn throughout a run exactly
  when no such post occurs (`ExclusionExactly`). Whether two workers can still come
  to execute tasks of one object, with sequential posts only from now on, can be
  told from the state: they can if and only if the object has more turns, ready or
  being executed, than its running flag accounts for (`OverlapExactly`). Such a
  spare turn may outlive the flag: an object that has stopped running with one turn
  left gets a second one at its next sequential post. Once the turns equal the flag
  there is exclusion (`ExclusionRestored`), and tasks finish in the order posted
  (`OrderRestored`), until the next such parallel post.
- Payload slots are lost for good (`LeakedForever`) in two places: the destructor
  drops queued mails without freeing their slots (`LeakedSlot`), and a worker trims
  queued mails of message 0, which it never takes, without freeing theirs
  (`DrainedSlot`). Message 0 marks an empty cell, yet it can be registered and sent;
  it is accepted and never delivered (`ZeroNeverDelivered`). `StepLosesExactly` and
  `LossFreeExactly` say exactly which steps and runs lose a slot. Once all are lost
  no payload is ever sent again (`ExhaustedForever`).
- Objects are told apart by address alone, although they live in several
  processes. A listener of another process at the sender's address gets nothing:
  `_notify` reaches the listeners other than the sender exactly if there is none
  such (`RecipientsExactly`). The destructor of one object also removes the
  registrations of the others at its address: a live object keeps a registration
  for a nonzero message exactly as long as no listening object of another process at its address is
  destroyed (`LiveListenerStays`). `NamesakeLoses` is a run in which both happen.
  Registrations for message 0 go with any listening object (`RegistrationStays`).
- `addListen` accepts any object as listener. An entry for an object that does
  not listen itself outlives it (`StrayListener`); `AddListenTracked` says
  exactly when a registration is harmless.
- `_notify` answers true whenever the message has a listener, even if that is
  the sender alone or every copy was dropped.
- The process table is sized for 24 processes but holds fewer: an entry is
  larger than the value the space was computed from
  (`FewerEntriesThanValues`).
- The library's README (fjdispatchlite/README.md:99) promises no iterator
  invalidation due to reallocation. There is no reallocation, but entries shift:
  `InsertKeepsReference` and `UnsetKeepsReference` say exactly when a pointer
  from `find` or `insert` still shows the same key after another key was
  inserted or removed.
- Handles never repeat within 2^63 - 2 draws, but the handle 1 is given out
  only once: after the largest handle the counter goes on with 2
  (`HandleClosedForm`).
- A timer that is created while the timer thread sleeps rouses it only if a fifth
  of its interval is shorter than the base interval, which earlier timers have
  shortened, even ones that are inactive by now. The new timer starts on time if
  and only if it rouses the thread or the sleep ends by its due time, up to the
  minimum wait (`CreationExactly`); if not, it can be late by 1985 milliseconds more
  than otherwise, never by more than that (`NewTimerLateness`). `CreationOverslept`
  is a run from the constructor in which nothing takes any time and such a timer
  fires 2000 milliseconds late. A bound for every run, with any number of
  creations, is `LatenessAlways`. All of this is about a sleep that lasts: see the
  assumption on the clock.
- The timer theorems on spacing need no monotone clock at all.

## Assumptions

- Handles do not stay pending so long that the same handle comes round again
  (`NotStale`, stated on both the registration and the report).
- Which recipients a notification reaches is stated in closed form for a clock
  under which no slot becomes reclaimable in the middle of the call (`Steady`);
  a single reading per call is such a clock. For every other clock
  `SentAtAnyTime` says exactly when each recipient gets its copy, and
  `FanOutAtLeast` how many do at least. Ownership and conservation hold for
  every clock.
- `ListenersLive` is about runs whose registrations are for live listening
  objects (`ConsiderateRun`). Nothing else about the mailbox assumes anything of
  its users: neither that messages are nonzero nor that addresses are unique across
  processes. What fails without that is stated above, with its exact condition;
  ownership, conservation, the fan-out and the counts hold all the same.
- Each object stands in one process; objects are known by process and address.
- The process table has a cell for a process that registers its first listener,
  as the source asserts.
- A sleep of the timer thread may end early, but not late by more than `slip`. The
  source takes its deadline from CLOCK_MONOTONIC_RAW (fjtypes.cpp:19-27) for a
  condition variable with default attributes (fjtimerlite.h:216), which compares it
  with the wall clock. Where that is ahead of the uptime, as is usual, every wait is
  over at once: the loop then spins, and the long sleep of `CreationOverslept` does
  not happen. Where it is behind, sleeps are longer than asked and `slip` is large.
- An insertion into the timer table leaves the cursor on its timer, or past the end;
  the order of the others is free. Standard C++ promises less for a rehash.
- Integers are unbounded except where a width matters: handles wrap at
  INT64_MAX, `splice` requires `start + count` to fit a `size_t`, and a
  `FixMap` has at most 2^31 - 1 cells, since `_find_index` returns an `int`.

## Model

| member | source | states |
|---|---|---|
| FixVectors.FixVector.constructor | fjdispatchlite/fjfixvector.h:43-50 | a view of an existing buffer; a count beyond the capacity is cut down |
| FixVectors.FixVector.PushBack | fjdispatchlite/fjfixvector.h:58-64 | appends exactly when there is room, otherwise changes nothing |
| FixVectors.FixVector.PushFront | fjdispatchlite/fjfixvector.h:72-79 | prepends exactly when there is room, shifting the rest |
| FixVectors.FixVector.At | fjdispatchlite/fjfixvector.h:102-114 | a cell in use, and nothing beyond the count |
| FixVectors.FixVector.Splice | fjdispatchlite/fjfixvector.h:121-134 | the moved array is the old contents without the cut range, for any range |
| FixVectors.FixVector.Sort | fjdispatchlite/fjfixvector.h:141-145 | the cells in use become a sorted permutation of themselves, the others stay |
| FixVectors.SortedCopySorts | fjdispatchlite/fjfixvector.h:136-145 | sorting by any strict weak order gives a sorted permutation |
| FixMaps.FixMap.constructor | fjdispatchlite/fjfixmap.h:48-55 | takes over a sorted table |
| FixMaps.FixMap.FindIndex | fjdispatchlite/fjfixmap.h:143-152 | bisection returns the key's rank, or -1 exactly when the key is not bound |
| FixMaps.FixMap.Find | fjdispatchlite/fjfixmap.h:113-116 | the bound value, exactly for bound keys |
| FixMaps.FixMap.InsertNew | fjdispatchlite/fjfixmap.h:93-106 | shifting makes the sorted table with one new binding, all others kept |
| FixMaps.FixMap.Insert | fjdispatchlite/fjfixmap.h:89-107 | a present key changes nothing; an absent one is added and no other binding changes |
| FixMaps.FixMap.Unset | fjdispatchlite/fjfixmap.h:122-131 | true exactly for a bound key; the map loses exactly that binding |
| FixMaps.WithKeyExtendsMap | fjdispatchlite/fjfixmap.h:95-106 | adding at the rank keeps the keys increasing and adds exactly one binding |
| FixMaps.WithoutKeyShrinksMap | fjdispatchlite/fjfixmap.h:125-130 | removing keeps the keys increasing and drops exactly one binding |
| FixMaps.NewValueUpdatesMap | fjdispatchlite/fjfixmap.h:113-116 | writing through a found pointer rebinds that key only |
| FixMaps.RankIs | fjdispatchlite/fjfixmap.h:95-98 | in a sorted table there is one place where the keys turn from smaller to not smaller |
| FixMaps.InsertKeepsReference | fjdispatchlite/fjfixmap.h:100-106 | a held pointer still shows its key after an insertion if and only if the new key is larger |
| FixMaps.UnsetKeepsReference | fjdispatchlite/fjfixmap.h:125-130 | a held pointer still shows its key after a removal if and only if the removed key is larger |
| FixMaps.FewerEntriesThanValues | fjdispatchlite/fjfixmap.h:53-54 | space for n values always holds fewer than n entries |
| Mailboxes.FanOut | fjdispatchlite/fjsharedmem.h:399-442 | copies only append to the queue and leave tables and counts alone |
| Mailboxes.Registered | fjdispatchlite/fjsharedmem.h:685-712 | registering never drops an entry and never exceeds the table |
| Mailboxes.StepWellFormed | fjdispatchlite/fjsharedmem.h:184-809 | no step exceeds a table, the queue or a slot |
| MailOwnership.StepSound | fjdispatchlite/fjsharedmem.h:184-809 | every step of every process keeps single ownership of live slots and conservation of letters |
| MailOwnership.SentKeeps | fjdispatchlite/fjsharedmem.h:410-441 | a copy, queued or dropped with its slot returned, keeps ownership |
| MailOwnership.NotifyKeeps | fjdispatchlite/fjsharedmem.h:362-457 | a notification keeps ownership and records each accepted letter with its bytes |
| MailOwnership.DrainKeeps | fjdispatchlite/fjsharedmem.h:748-764 | a drain moves mails to the batch and loses none |
| MailOwnership.CheckSucceeds | fjdispatchlite/fjsharedmem.h:774-783 | the worker's slot check succeeds on every payload mail and yields the bytes sent |
| MailOwnership.SoleOwner | fjdispatchlite/fjsharedmem.h:774-792 | no other mail, queued or in any batch, refers to the slot a worker delivers from |
| MailOwnership.EndKeeps | fjdispatchlite/fjsharedmem.h:786-792 | marking the slot processed ends exactly one ownership and counts one delivery |
| MailOwnership.CollectKeeps | fjdispatchlite/fjsharedmem.h:488-521 | collection frees no slot that a mail still owns |
| MailOwnership.DetachKeeps | fjdispatchlite/fjsharedmem.h:259-289 | a purge turns owned slots into leaked ones and accepted letters into purged ones |
| MailOwnership.AttachKeeps | fjdispatchlite/fjsharedmem.h:184-213 | a new object, with or without a new worker, keeps ownership |
| MailRuns.AlwaysSound | fjdispatchlite/fjsharedmem.h:184-809 | ownership and conservation in every state of every run |
| MailRuns.QuiescentDelivered | fjdispatchlite/fjsharedmem.h:748-800 | as bags, deliveries and purges never exceed what was accepted, and equal it when nothing is queued or in flight |
| MailRuns.NoSharedSlot | fjdispatchlite/fjsharedmem.h:411-431 | mails at different places, in queue or batches, never refer to the same slot |
| MailRuns.SlotAccounting | fjdispatchlite/fjsharedmem.h:261-271 | live slots = payload mails queued + in flight + purged, in every state |
| MailRuns.StepCalm | fjdispatchlite/fjsharedmem.h:590-608 | no step but the end of a callback changes a live slot, and that one only its own |
| MailRuns.ReadWindowStable | fjdispatchlite/fjsharedmem.h:775-792 | the bytes read without the lock stay as they were from the check to the end of the callback |
| MailRuns.LeakedForever | fjdispatchlite/fjsharedmem.h:261-271 | purged mails' slots are never changed again |
| MailRuns.ExhaustedForever | fjdispatchlite/fjsharedmem.h:411-417 | with all slots lost no payload notification changes anything any more |
| MailFanOut.AllocatorComplete | fjdispatchlite/fjsharedmem.h:590-608 | the first reclaimable slot in circular order from the hint; -1 exactly when there is none |
| MailFanOut.SentExact | fjdispatchlite/fjsharedmem.h:410-441 | one copy is queued with a free slot exactly if queue and slots have room; otherwise queue and free slots are unchanged |
| MailFanOut.FanOutExact | fjdispatchlite/fjsharedmem.h:399-442 | exactly the first min(n, room, free slots) recipients are queued, in table order, each with a slot of its own that holds the bytes sent, stamped with the clock reading of its own sending |
| MailFanOut.SentAtAnyTime | fjdispatchlite/fjsharedmem.h:410-441 | for every clock: a recipient gets a copy exactly if the queue has room and some slot is free at that moment |
| MailFanOut.FanOutAtLeast | fjdispatchlite/fjsharedmem.h:399-442 | with a clock that moves on, at least min(n, room, slots free at the start) copies are queued |
| MailFanOut.FanOutBareExact | fjdispatchlite/fjsharedmem.h:399-442 | without payload exactly the first min(n, room) recipients, and no slot changes |
| MailFanOut.NotifyExact | fjdispatchlite/fjsharedmem.h:362-457 | the exact effect of a notification on queue and slots; earlier mails stay as they are, and only slots that were free are touched, so none that a mail owns (`MailRuns.StepCalm`) |
| MailSlots.AllocationExactly | fjdispatchlite/fjsharedmem.h:590-608 | the first slot from the hint on that is unused, or processed and sent at least 5000 ms ago; -1 exactly if there is none |
| MailSlots.SentTakesFirst | fjdispatchlite/fjsharedmem.h:592-604 | sending a payload takes that slot and puts the hint just behind it, whether the copy is queued or not |
| MailSlots.SuccessiveAllocations | fjdispatchlite/fjsharedmem.h:592-604 | the second of two allocations takes the first such slot after that of the first |
| MailSlots.FanOutStamped | fjdispatchlite/fjsharedmem.h:418-430 | for every clock each queued copy's slot carries the reading for its own recipient |
| MailSlots.NotifyStamps | fjdispatchlite/fjsharedmem.h:418-430 | over runs: message, bytes, processes and send time of each payload mail just queued |
| MailSlots.CollectedExactly | fjdispatchlite/fjsharedmem.h:513-515 | exactly the processed slots of the given age are freed |
| MailSlots.LiveStays | fjdispatchlite/fjsharedmem.h:590-608 | an unprocessed slot in use stays as it is until the callback that was shown it ends |
| MailSlots.EndMarks | fjdispatchlite/fjsharedmem.h:786-792 | that end marks the slot with its time and keeps message, bytes and send time |
| MailSlots.ProcessedStays | fjdispatchlite/fjsharedmem.h:600-604 | a processed slot stays as it is until a notification reads a clock 5000 ms after its sending, or the collector's age is reached |
| MailSlots.SlotLife | fjdispatchlite/fjsharedmem.h:418-431 | the three together: from the sending to the reuse |
| MailLifecycle.RegisteredTable | fjdispatchlite/fjsharedmem.h:681-715 | registration adds exactly the missing triples while there is room and keeps the table duplicate-free |
| MailLifecycle.StepOrderly | fjdispatchlite/fjsharedmem.h:184-809 | every step keeps the listener table sorted and duplicate-free, every queued mail matched, and all counts exact |
| MailLifecycle.StepCounted | fjdispatchlite/fjsharedmem.h:188-255 | process counts are the numbers of unreleased listening objects, `initialized_` that of all objects |
| MailLifecycle.AddListenTracked | fjdispatchlite/fjsharedmem.h:317-348 | a registration keeps listeners live if and only if it adds nothing or is for a live listening object |
| MailLifecycle.StepTracked | fjdispatchlite/fjsharedmem.h:184-289 | no step but such a registration leaves a listener without its object |
| MailLifecycle.DetachCleans | fjdispatchlite/fjsharedmem.h:260-284 | after phase two no mail and no listener of the object remains |
| MailLifecycle.DetachTakesExactly | fjdispatchlite/fjsharedmem.h:260-284 | exactly the mails and listeners at that address, and those of message 0, are taken away, with their number of occurrences |
| MailLifecycle.DrainTakesExactly | fjdispatchlite/fjsharedmem.h:752-763 | the batch is exactly the process's own mails; every other nonzero one stays |
| MailLifecycle.DetachLeaksExactly | fjdispatchlite/fjsharedmem.h:261-271 | a destructor costs no slot if and only if the mails it drops carry no payload |
| MailLifeRuns.AlwaysOrderly | fjdispatchlite/fjsharedmem.h:184-809 | tables and counts are in order in every state of every run |
| MailLifeRuns.ListenersLive | fjdispatchlite/fjsharedmem.h:219-289 | listeners and queued mails belong to live objects, whose process is counted unless the object is between the phases |
| MailLifeRuns.StrayListener | fjdispatchlite/fjsharedmem.h:317-329 | a run in which a listener outlives its object |
| MailLifeRuns.LeakedSlot | fjdispatchlite/fjsharedmem.h:259-271 | a run after which a slot is in use and no object is left |
| MailLosses.DrainLeaksExactly | fjdispatchlite/fjsharedmem.h:752-763 | a drain costs no slot if and only if no queued mail of message 0 carries a payload |
| MailLosses.StepLosesExactly | fjdispatchlite/fjsharedmem.h:184-809 | of all steps, only a drain that meets a payload mail of message 0 and a destructor that drops a payload mail lose a slot, and those do |
| MailLosses.LossFreeExactly | fjdispatchlite/fjsharedmem.h:184-809 | a stretch of a run loses no slot if and only if it contains no such step |
| MailLosses.WorkerLosesOnlyZero | fjdispatchlite/fjsharedmem.h:752-763 | a worker loses a slot only while message 0 is registered |
| MailLosses.ZeroNeverDelivered | fjdispatchlite/fjsharedmem.h:754-758 | no mail of message 0 is ever taken or delivered |
| MailLosses.DrainedSlot | fjdispatchlite/fjsharedmem.h:752-763 | a run without destructors that loses a slot |
| MailLosses.RecipientsExactly | fjdispatchlite/fjsharedmem.h:399-406 | the recipients are the listeners other than the sender if and only if no other process listens to the message at the sender's address |
| MailLosses.StepDropsExactly | fjdispatchlite/fjsharedmem.h:273-283 | a step drops a registration if and only if it destroys a listening object at its address, or any listening object if its message is 0 |
| MailLosses.RegistrationStays | fjdispatchlite/fjsharedmem.h:273-283 | so over any stretch of a run |
| MailLosses.LiveListenerStays | fjdispatchlite/fjsharedmem.h:273-283 | the registration of an unreleased object for a nonzero message stays if and only if no listening object of another process at its address is destroyed |
| MailLosses.NamesakeLoses | fjdispatchlite/fjsharedmem.h:259-284 | a run in which a live object gets nothing from its namesake and loses its registration to it |
| MailDelivery.AlwaysStaffed | fjdispatchlite/fjsharedmem.h:187-210 | in every state of every run the process of each listening object has a worker |
| MailDelivery.StepHires | fjdispatchlite/fjsharedmem.h:199-209 | a worker is started exactly when its process enters the process table |
| MailDelivery.QueuedServable | fjdispatchlite/fjsharedmem.h:187-210 | with considerate registrations each queued mail's process has a worker, and is in the process table unless the object is released |
| MailDelivery.StepDeliveryLeft | fjdispatchlite/fjsharedmem.h:748-800 | each drain that takes or trims, and each start or end of a callback, lowers the steps left; objects, tables and accepted letters stay |
| MailDelivery.DeliveryProgress | fjdispatchlite/fjsharedmem.h:748-800 | while anything is queued or in flight some such step is enabled |
| MailDelivery.MaximalRunDelivers | fjdispatchlite/fjsharedmem.h:748-800 | a run that no such step can continue has delivered or purged every accepted letter |
| MailDelivery.CanDeliver | fjdispatchlite/fjsharedmem.h:748-800 | from every state with no released object's mail queued, the workers alone can empty queue and batches; nothing is purged on the way unless message 0 was queued |
| SharedRegions.MarkSortTrim | fjdispatchlite/fjsharedmem.h:752-763 | mark, sort and trim leave a sorted permutation of the mails not taken, without empty ones |
| SharedRegions.TrimIsFilter | fjdispatchlite/fjsharedmem.h:761-763 | trimming a sorted queue is filtering out its empty mails |
| SharedRegions.TakeOut | fjdispatchlite/fjsharedmem.h:261-271 | the taken mails in queue order; the loops terminate and leave the sorted rest |
| SharedRegions.TrimFront | fjdispatchlite/fjsharedmem.h:269-271 | drops exactly the leading empty mails, one splice at a time |
| SharedRegions.SharedRegion.constructor | fjdispatchlite/fjsharedmem.h:648-673 | the empty region of the initial state |
| SharedRegions.SharedRegion.AllocPayloadSlot | fjdispatchlite/fjsharedmem.h:590-608 | the loop finds the first slot that is unused, or processed and sent 5000 ms ago, -1 exactly if there is none; only that slot is cleared, and the hint put behind it |
| SharedRegions.SharedRegion.SendTo | fjdispatchlite/fjsharedmem.h:410-441 | one copy as in the transition system, including the returned slot on a full queue |
| SharedRegions.SharedRegion.FirstListener | fjdispatchlite/fjsharedmem.h:376-390 | by bisection the first entry of the message, or -1 exactly when it has none |
| SharedRegions.SharedRegion.Notify | fjdispatchlite/fjsharedmem.h:362-457 | the step of a notification; true if and only if sender and size are valid and the message has a listener; signals exactly the processes in the table that got a mail |
| SharedRegions.SharedRegion.Broadcast | fjdispatchlite/fjsharedmem.h:444-455 | of the given processes exactly those in the table are signalled |
| SharedRegions.SharedRegion.FanOutLoop | fjdispatchlite/fjsharedmem.h:399-442 | walking the sorted table until the message changes reaches exactly its recipients, and collects the processes of the copies queued |
| SharedRegions.SharedRegion.Drain | fjdispatchlite/fjsharedmem.h:748-764 | the process's own mails in queue order; the queue keeps the others, sorted |
| SharedRegions.SharedRegion.CheckSlot | fjdispatchlite/fjsharedmem.h:774-783 | the bytes of the slot, exactly if it is in use for this message and process |
| SharedRegions.SharedRegion.MarkProcessed | fjdispatchlite/fjsharedmem.h:786-792 | marks the slot if it is in use and changes nothing else |
| SharedRegions.SharedRegion.ProfileAndGC | fjdispatchlite/fjsharedmem.h:488-521 | frees exactly the processed slots of the given age and counts those in use and pending |
| SharedRegions.SharedRegion.AddListen | fjdispatchlite/fjsharedmem.h:681-715 | registers the missing triples, sorts the table, returns how many were added |
| SharedRegions.SharedRegion.Attach | fjdispatchlite/fjsharedmem.h:184-213 | the constructor's step on listener table, process table and instance count |
| SharedRegions.SharedRegion.Release | fjdispatchlite/fjsharedmem.h:222-255 | the first destructor phase; the last user removes the process entry |
| SharedRegions.SharedRegion.Detach | fjdispatchlite/fjsharedmem.h:259-289 | the second phase purges queue and table of the object |
| DispatchInvariants.StepTurns | fjdispatchlite/fjdispatchlite.h:213-228 | turns of an instance (ready entries + workers serving it) = running flag + surplus, and the surplus is at most the parallel posts that found it running |
| DispatchInvariants.StepInOrder | fjdispatchlite/fjdispatchlite.h:505-518 | post history = started tasks followed by the queue, for every instance |
| DispatchInvariants.StepTasks | fjdispatchlite/fjdispatchlite.h:505-539 | started tasks = finished + executing; a non-empty queue implies running, and running implies a turn |
| DispatchInvariants.StepCounts | fjdispatchlite/fjdispatchlite.h:422-430 | wake-up and pool bounds hold although re-queues by workers never grow the pool |
| DispatchInvariants.AlwaysFits | fjdispatchlite/fjdispatchlite.h:493-543 | all dispatcher invariants in every state of every run |
| DispatchRuns.SequentialExclusion | fjdispatchlite/fjdispatchlite.h:296-310 | without such parallel posts at most one worker serves an instance and tasks finish in post order |
| DispatchRuns.ExclusionExactly | fjdispatchlite/fjdispatchlite.h:214-227 | at most one turn throughout a run if and only if no parallel post finds the instance running |
| DispatchRuns.ParallelPostDoubles | fjdispatchlite/fjdispatchlite.h:218-224 | such a post makes a second turn at once |
| DispatchRuns.ExclusionRestored | fjdispatchlite/fjdispatchlite.h:532-539 | from a state whose turns equal the running flag on they stay equal and at most one worker serves the instance, until the next parallel post that finds it running |
| DispatchRuns.SequentialOverlap | fjdispatchlite/fjdispatchlite.h:218-224 | a run in which two sequentially posted tasks of one instance execute together |
| DispatchOverlap.OverlapExactly | fjdispatchlite/fjdispatchlite.h:213-228 | from a reachable state, sequential posts and the workers can make two workers serve an instance if and only if its turns exceed its running flag |
| DispatchOverlap.SpareTurnsOverlap | fjdispatchlite/fjdispatchlite.h:493-543 | with spare turns, two sequential posts and worker steps lead to such an overlap |
| DispatchOverlap.TakeUp | fjdispatchlite/fjdispatchlite.h:498-518 | any worker can work its way to a ready instance and serve it while no other execution ends |
| DispatchOrder.OrderRestored | fjdispatchlite/fjdispatchlite.h:505-539 | from a state without spare turns on, what finishes is in post order: the task executing then, and those started since, until the next parallel post that finds the instance running |
| DispatchRuns.ReadyFifo | fjdispatchlite/fjdispatchlite.h:506-507 | over any stretch, old queue + pushes = pops + new queue |
| DispatchRuns.RoundRobin | fjdispatchlite/fjdispatchlite.h:532-535 | while an instance waits its turn no other instance is popped twice |
| DispatchRuns.NoLostWakeUp | fjdispatchlite/fjdispatchlite.h:500-500 | ready work implies a worker that is up; while one sleeps, ready entries are at most the workers that are up |
| DispatchRuns.PoolBounds | fjdispatchlite/fjdispatchlite.h:415-430 | 2 to 8 workers, never fewer again, tracked count exact, at 8 or ready + executing at most twice the pool |
| DispatchPool.PoolGrowsExactly | fjdispatchlite/fjdispatchlite.h:422-430 | the pool grows, by one, exactly at a post after which more instances are ready than there were workers, below 8 |
| DispatchPool.WorkersExactly | fjdispatchlite/fjdispatchlite.h:493-543 | what each worker does after each step: who sleeps, is woken, starts which task, is gone |
| DispatchPool.SignalReaches | fjdispatchlite/fjdispatchlite.h:535-535 | the signal of a ready push wakes a worker exactly if one sleeps |
| DispatchPool.StopIsFinal | fjdispatchlite/fjdispatchlite.h:88-94 | after a stop the flag stays and no task starts |
| DispatchPool.CheckExits | fjdispatchlite/fjdispatchlite.h:500-504 | after a stop a worker that looks for work is gone |
| DispatchPool.ShutdownIsShort | fjdispatchlite/fjdispatchlite.h:493-543 | after a stop the workers take at most 16 more steps |
| DispatchPool.ShutdownCompletes | fjdispatchlite/fjdispatchlite.h:96-98 | a stopped run that no worker can continue has only workers that are gone, so the joins return |
| DispatchDrain.StepWorkLeft | fjdispatchlite/fjdispatchlite.h:506-541 | 2 queued + 2 executing + ready falls with every pop, empty pop and finish |
| DispatchDrain.BoundedWork | fjdispatchlite/fjdispatchlite.h:493-543 | a run without posts has at most that many work steps |
| DispatchDrain.Progress | fjdispatchlite/fjdispatchlite.h:493-543 | while a task is unfinished some work step is enabled |
| DispatchDrain.IdleIsComplete | fjdispatchlite/fjdispatchlite.h:532-539 | an idle dispatcher has finished every posted task as often as it was posted |
| DispatchDrain.MaximalRunCompletes | fjdispatchlite/fjdispatchlite.h:493-543 | every maximal run executes every posted task exactly once |
| DispatchDrain.CanDrain | fjdispatchlite/fjdispatchlite.h:493-543 | every reachable state can be continued, without posts, to one where all is done |
| Results.HandleClosedForm | fjdispatchlite/fjdispatchlite.h:461-467 | the counter's values in closed form, across the wrap |
| Results.HandleRange | fjdispatchlite/fjdispatchlite.h:461-467 | handles are between 1 and INT64_MAX, and 1 is given out once |
| Results.HandleCollision | fjdispatchlite/fjdispatchlite.h:461-467 | two draws collide if and only if they are a multiple of 2^63 - 2 apart, the first draw excepted |
| Results.HandlesFresh | fjdispatchlite/fjdispatchlite.h:461-467 | draws less than a period apart differ |
| Results.StepAgrees | fjdispatchlite/fjdispatchlite.h:110-142 | registering and reporting keep the table equal to the last 100 registrations with their own results |
| Results.AlwaysAgrees | fjdispatchlite/fjdispatchlite.h:110-142 | so in every state of every run |
| Results.WaitResult | fjdispatchlite/fjdispatchlite.h:360-371 | a waiter finds a value if and only if the handle's own task produced it and is among the last 100 |
| Results.LastHundred | fjdispatchlite/fjdispatchlite.h:118-122 | a registration is in the table until exactly a hundred later ones |
| Results.ResultStaysFixed | fjdispatchlite/fjdispatchlite.h:133-142 | a produced result is found unchanged until evicted |
| Services.StepLinked | fjdispatchlite/fjdispatchlite.h:157-231 | draws, registrations, posts, executions and reports keep queue and result table linked |
| Services.ReportsOnce | fjdispatchlite/fjdispatchlite.h:206-208 | a task reports at most once, and its value is entered |
| Services.WaitFindsOwnResult | fjdispatchlite/fjdispatchlite.h:356-382 | a waiter finds its own task's value; when the workers are idle it is there for each of the last 100 registered handles that were posted |
| Dispatchers.Dispatcher.constructor | fjdispatchlite/fjdispatchlite.h:406-413 | two workers and empty tables |
| Dispatchers.Dispatcher.SpawnWorker | fjdispatchlite/fjdispatchlite.h:415-420 | one more worker, awake |
| Dispatchers.Dispatcher.GetHandle | fjdispatchlite/fjdispatchlite.h:461-467 | the n-th call gives the n-th handle |
| Dispatchers.Dispatcher.NewResultItem | fjdispatchlite/fjdispatchlite.h:110-126 | the registration step, with eviction of the oldest |
| Dispatchers.Dispatcher.PostResultItem | fjdispatchlite/fjdispatchlite.h:133-142 | the report step; an evicted handle changes nothing |
| Dispatchers.Dispatcher.TryResult | fjdispatchlite/fjdispatchlite.h:361-371 | found exactly when present and ready |
| Dispatchers.Dispatcher.AdjustWorkers | fjdispatchlite/fjdispatchlite.h:422-430 | grows by one exactly when ready exceeds the pool and the pool is below 8 |
| Dispatchers.Dispatcher.Enqueue | fjdispatchlite/fjdispatchlite.h:213-228 | the step of a post, sequential or parallel |
| Dispatchers.Dispatcher.TakeTurn | fjdispatchlite/fjdispatchlite.h:498-518 | the step of a worker that holds the lock: exit, sleep, empty pop or start |
| Dispatchers.Dispatcher.FinishTurn | fjdispatchlite/fjdispatchlite.h:523-541 | the step after execution: requeue and signal, or stop running |
| Dispatchers.Dispatcher.Shutdown | fjdispatchlite/fjdispatchlite.h:88-94 | declares the end and wakes every sleeping worker |
| Timers.MinimumWait | fjdispatchlite/fjtimerlite.h:258-268 | the wait is 15 ms if and only if an active timer is due within that, else until the first one is due, at most 2000 ms |
| Timers.StepForward | fjdispatchlite/fjtimerlite.h:278-308 | a due time only moves forward, by at least the interval at a firing, whatever the clock does; inactive is final |
| Timers.FiringRate | fjdispatchlite/fjtimerlite.h:290-308 | n further firings take at least n intervals |
| Timers.FiringsSpaced | fjdispatchlite/fjtimerlite.h:290-308 | any two firings of a timer are at least its interval apart |
| Timers.StepActive | fjdispatchlite/fjtimerlite.h:147-156 | a step switches a timer off exactly if it removes it or ends its callback with a negative result; no other timer is affected |
| Timers.ActiveExactly | fjdispatchlite/fjtimerlite.h:319-326 | over runs: an active timer is still active exactly if nothing switched it off |
| Timers.FirstFiring | fjdispatchlite/fjtimerlite.h:142-145 | a new timer is active and fires no earlier than its interval after its creation |
| Timers.StepBase | fjdispatchlite/fjtimerlite.h:131-136 | where the base interval comes from, and that a broadcast ends a sleep at its own time |
| Timers.StopEndsLoop | fjdispatchlite/fjtimerlite.h:274-276 | after a stop no timer fires and the next wake-up ends the thread |
| Timers.NeverAgain | fjdispatchlite/fjtimerlite.h:290-326 | after removal or a negative result the timer never fires |
| TimerLateness.StepNearer | fjdispatchlite/fjtimerlite.h:278-293 | each wake-up brings the cursor one place nearer to a timer and passes over no due one |
| TimerLateness.SelectedInTime | fjdispatchlite/fjtimerlite.h:252-330 | in a fixed table of k timers a due active timer that nothing switches off fires within k + 1 wake-ups |
| TimerLateness.FiresAgain | fjdispatchlite/fjtimerlite.h:252-330 | and again in every further stretch of k + 1 wake-ups for which it is due |
| TimerLateness.StepOnTime | fjdispatchlite/fjtimerlite.h:258-329 | every step in a fixed table keeps a timer's overdue time within one round per place that the cursor has come nearer |
| TimerLateness.LookedAt | fjdispatchlite/fjtimerlite.h:278-308 | the wake-up that looks at a timer leaves it on time, however late it was |
| TimerLateness.Settled | fjdispatchlite/fjtimerlite.h:252-330 | in a fixed table every timer is on time that was so at the start or has been looked at since |
| TimerLateness.LatenessBound | fjdispatchlite/fjtimerlite.h:252-330 | from a state on after which no timer is added, if no timer was overdue in it and the thread not asleep, or else once k + 1 wake-ups have passed, every firing comes at most k + 1 rounds of callback + 15 ms + overshoot after its due time |
| TimerLateness.CreationOverslept | fjdispatchlite/fjtimerlite.h:121-138 | a run from the constructor in which a timer created during a sleep fires 2000 ms late |
| TimerLateness.CreationExactly | fjdispatchlite/fjtimerlite.h:121-138 | a new timer is on time if and only if its creation does not leave the thread asleep past its due time and for more than the minimum wait; otherwise it is 1985 ms from it |
| TimerLateness.NewTimerLateness | fjdispatchlite/fjtimerlite.h:121-138 | until another timer is added, every firing of a new timer comes at most k + 1 rounds after its due time, plus 1985 ms if its creation overslept |
| TimerLateness.LatenessAlways | fjdispatchlite/fjtimerlite.h:252-330 | in every run, whatever is created: at most k + 1 rounds, one tour of the table for each creation so far, and 1985 ms if one overslept |
| Timers.TimerLoop.constructor | fjdispatchlite/fjtimerlite.h:215-219 | an empty table, with nothing overdue |
| Timers.TimerLoop.SleepUntilNext | fjdispatchlite/fjtimerlite.h:256-272 | the loop over the table computes the wait of the step |
| Timers.TimerLoop.WakeUp | fjdispatchlite/fjtimerlite.h:274-309 | the cursor step; a callback is chosen exactly when the cursor stands on an active due timer |
| Timers.TimerLoop.FinishCallback | fjdispatchlite/fjtimerlite.h:319-329 | a negative result deactivates, and the cursor moves on |
| Timers.TimerLoop.CreateTimer | fjdispatchlite/fjtimerlite.h:121-138 | intervals below 15 are refused with 0; otherwise the timer is due one interval after its start, and the thread is roused exactly if that shortens the base interval |
| Timers.TimerLoop.SetBaseInterval | fjdispatchlite/fjtimerlite.h:99-108 | accepted between 15 and 2000 ms, and then rouses the thread |
| Timers.TimerLoop.RemoveTimer | fjdispatchlite/fjtimerlite.h:147-156 | true exactly for a known handle, which becomes inactive |

## Left out

- MailFanOut.NotifyExact: stated for a clock under which no slot becomes reclaimable during the call; with a clock that moves on a later recipient may get a slot that an earlier one did not, so there the result is per recipient and a lower bound.
- SharedRegions.SharedRegion.Notify: needs the listener table sorted, which registration and destruction keep; that the worker of a process in the table is running is taken from the process table itself.
- SharedRegions.SharedRegion.Broadcast: the flags that say a worker is running or done are not modelled; a process in the table counts as one whose worker runs.
- MailDelivery.CanDeliver: says that the workers can deliver, not that they will. A worker waits on its condition without a predicate, so a wake-up can be missed. Mails of an object between its destructor's phases are not covered, since the last one to be released ends the worker.
- FixVectors.FixVector.Sort: `std::sort` is an insertion sort here; its contract is only that of a sorted permutation, so nothing rests on the order of equal elements.
- FixMaps.FixMap.Insert: a capacity check that the source asserts is a precondition; the value of a new entry is whatever the cell held.
- Pointers into the process table that a worker thread keeps across shifts of the table: the worker's process is known by its id.
- Joining a finished worker and its timeout in the destructor, callbacks to objects destroyed while a batch is in flight, and processes that die without their destructor.
- TimerLateness.SelectedInTime: for a table that nobody adds to meanwhile; an insertion may reorder the hash table, whose iterators the source keeps.
- TimerLateness.LatenessBound: for a table that nobody adds to; with creations the bounds are those of `NewTimerLateness` and `LatenessAlways`.
- Timers.TimerLoop.CreateTimer: the order of the hash table after an insertion is a parameter.
- `removeTimer()` for all timers and the destructor of the timer loop.
- Dispatchers.Dispatcher.TryResult: one look of a waiter; the polling, time-outs and clock of `waitResult` are left out.
- `enqueueTask` draws a handle that is never registered, so no result can be found for it; in the model such a task is posted without a registration.
- Execution times, the monitor thread, profiling fields and debug output; `_shrink_workers`, which nothing calls; copies of buffers and names; exceptions from tasks.
- Creating, mapping and unlinking shared memory, mutexes and threads as such, `FJSyncGuard`, the message map macros and the example programs.
- Wrap-around of `initialized_` and of reference counts, which no run with fewer than 2^32 objects reaches.
