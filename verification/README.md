# Bounded queues, checksums, job routing and number printing

This project models the concurrent and arithmetic core of a collection of Linux programming exercises and proves
what each part promises, over every input and every run.

* **The semaphore-guarded ring buffer** shared by producer and consumer threads (Chapter12, and its
  process-shared twin in Chapter14). A push takes a token from one semaphore, reserves a slot under a lock,
  *releases the lock*, and only then writes the slot and posts the other semaphore; a pop mirrors this. The
  bookkeeping is atomic, the data access is not. `QueueProtocol` is the queue as a transition system with any
  number of threads and one step per visible statement; `QueueCounts` proves what all runs keep; `QueueCells` says
  what the cells hold even when the data is not safe; `QueueOrder`, `QueueFifo`, `QueueBoundary` and `QueueTurns`
  settle exactly when it is; `QueueDrain` proves progress; `QueueLock` and `QueueLockDrain` take the lock apart into
  single statements and show that neither safety nor progress changes. `QueueMemory` holds the effect of each
  statement group on the shared memory; `QueueObject` is the queue as an object with an array, whose methods are
  proved against those same functions.
* **The producers and consumers around it**: `Delivery` is the whole system of producers that keep an unsent item,
  the queue and the consumers, and `DeliveryBoundary` says exactly when it delivers; `Workers` holds the objects.
  `MessageLink` is the message-queue variant, which drops an item when a send fails.
* **The checksum** of the items a client sends to the server (Chapter15): `Checksum` (closed form), `Detection`
  (which changes pass), `ChecksumItem` (the object).
* **The job router** of the thread pool: `Router` (choices and safety), `Fairness` (whole runs), `ThreadPool` (the
  object with its arrays and loops).
* **Printing and parsing numbers** (`Numerals`): `itoa`, which writes its digits backwards and turns them round in
  place, and `atoi`.

`Items`, `Wrappers`, `Blocks` and `Arithmetic` are shared by the rest. `dafny verify dfyconfig.toml` checks
everything.

## Results a reader of the code might not expect

* The ring buffer is safe for one producer and one consumer, and for a ring of one cell, and **for no other
  shape**: with two producers a consumer can claim a cell nobody has written, with two consumers a producer can
  wrap round onto a cell that is still being read, and in both cases a pop delivers the wrong item
  (`QueueBoundary.ExactSafetyBoundary`). The simulation's `-p` and `-c` options allow such shapes; its defaults do
  not use them. The exact reason is the order of the semaphore posts: posts in ticket order suffice for any number
  of threads (`QueueFifo.OrderedRunRefinesFifo`), and the first post out of order makes a collision reachable
  (`QueueTurns.FirstPostOutOfTurnIsFatal`).
* Producers that keep an item until it is taken do not help: the boundary is the same for the whole system
  (`DeliveryBoundary.ExactDeliveryBoundary`).
* The configuration check of the thread pool accepts pools it cannot serve. It sets no lower bound, so there may be
  no worker; and it compares a product that has wrapped at 2^32, so there may be none or a few where thousands of
  millions were asked for, and then same-core picks go past the workers. Exactly the other accepted configurations
  are safe (`Router.AcceptedIsSafeIff`), and creating the workers stays inside their array exactly when the unwrapped
  product is at most 128 (`ThreadPool.AdaptiveThreadPool.CreateJobWorkers`).
* The loop that deals queues to workers serves everyone only if the share factor divides their number, and in
  exclusive mode only if it is 1. Other factors make it ask for workers that do not exist, except a factor of 0 in
  exclusive mode and, in shared mode, one so large that the rounding sum wraps: those leave every worker without a
  queue (`Router.DealingIff`). The configuration's constructor takes a share factor and never stores it
  (AdaptiveThreadPool/include/WorkerConf.h:124-131), so the factor is whatever the setter was last given, or
  indeterminate.

## How the source is read

* A timed wait may return an error whenever it is called; its caller then returns false and changes nothing.
* Each array cell is written and read in one step. Where slots are proved safe no two threads touch a cell at the
  same time, so there the size of the copy does not matter.
* Memory is sequentially consistent. The statistics counters are unbounded; the `int` counters of the source agree
  with them for the first 2^31 - 1 operations. `m_front + m_cur_count` is below twice the size, so it does not
  overflow for sizes up to 2^30.
* Item ids wrap at 2^32 like the `unsigned int` they are stored in, and so do the thread pool's counts, cursors and
  the sums and products it makes of them (`Arithmetic.Wrap`).
* A timer round is one scan of the pool and one of each core, each with the counts it read; jobs may arrive between
  the scans. A scan reads its counts one at a time, so they need not belong to one moment. A scan that meets a worker
  that does not exist is undefined and is not modelled, so runs of a pool without workers, or with more than the
  array holds, have jobs only.
* A worker has no queue until one is assigned to it.
* Random payloads and draws are arbitrary parameters.
* Words are read from the data buffer low byte first, as on the machines the exercises were built on.
* AdaptiveThreadPool.cpp does not compile as it stands. The model takes line 237 to read the field of `mStatCtrl`,
  line 250 to pass on the added job, line 87 to call the share-factor getter, and a configuration that gets past
  line 91 to be accepted. A worker is represented by its job count and a queue by its index.

## Model

| member | source | states |
|---|---|---|
| QueueBoundary.ExactSafetyBoundary | Chapter12/Queue/Queue.h:52-81 | For every ring size and every number of producers and consumers: in all reachable states no two threads hold one slot and no consumer holds a slot not written for its ticket, if and only if the ring has one cell or there are one producer and one consumer; and the same condition decides whether every pop delivers the item pushed with its ticket |
| QueueBoundary.UnsafeStateExists | Chapter12/Queue/Queue.h:57-63 | Outside those shapes, for every size, a reachable state in which threads meet in a slot is constructed |
| QueueBoundary.WrongDeliveryExists | Chapter12/Queue/Queue.h:72-79 | Outside those shapes, for every size, a run is constructed in which a pop returns other data than was pushed with its ticket |
| QueueBoundary.ClaimBeforeWrite | Chapter12/Queue/Queue.h:57-63 | With two producers the second can publish first, and a consumer then claims the cell the first has not written |
| QueueBoundary.ReserveHeldSlot | Chapter12/Queue/Queue.h:72-79 | With two consumers the second can release first, and a single producer filling a ring of any size then reserves the slot the first still holds |
| QueueTurns.FirstPostOutOfTurnIsFatal | Chapter12/Queue/Queue.h:63-79 | From any state reached with all posts in ticket order, any post out of ticket order leads to a state from which a slot collision is reachable, for any size and any number of threads |
| QueueTurns.ClaimUpTo | Chapter12/Queue/Queue.h:67-81 | From any state that keeps the invariants, a run of consumer steps alone, without a timeout, brings one of them to any given ticket below the published count, while all producers stay where they are |
| QueueTurns.ReserveUpTo | Chapter12/Queue/Queue.h:52-65 | From any state that keeps the invariants, a run of producer steps alone, without a timeout, brings one of them to any ticket the released count leaves room for, while all consumers stay where they are |
| QueueFifo.OrderedRunRefinesFifo | Chapter12/Queue/Queue.h:57-79 | For any number of threads, if the posts come in ticket order, the run is the trace of a bounded FIFO of capacity size, every delivery carries what the FIFO gave out for its ticket, and no ticket is delivered twice |
| QueueFifo.SelfOrderedRunRefinesFifo | Chapter14/SharedMemory/Queue/Queue.h:64-95 | One producer with one consumer, and a ring of one cell with any threads, refine the FIFO in every run |
| QueueFifo.RefinesFifo | Chapter12/Queue/Queue.h:57-76 | The bookkeeping of every run, in any interleaving, is a FIFO trace with an event for every reservation and every claim: a reservation always finds room and a claim always finds an item |
| QueueFifo.FifoKeepsOrder | Chapter12/Queue/Queue.h:72-77 | In such a trace the items come out in the order in which they went in |
| QueueOrder.OrderedRunsAreSafe | Chapter12/Queue/Queue.h:52-81 | Posts in ticket order keep all slots apart and all deliveries right, for any number of threads |
| QueueOrder.AlwaysOrdered | Chapter12/Queue/Queue.h:62-79 | One producer with one consumer, and a ring of one cell, post in ticket order in every run |
| QueueCounts.ReachableConservation | Chapter14/SharedMemory/Queue/Queue.h:64-95 | In every reachable state, for any number of threads: free push tokens, producers holding one, queued items and consumers not yet released add up to the size; free pop tokens, consumers holding one and unpublished producers add up to the count; so the count stays between 0 and the size |
| QueueCounts.ReachableTickets | Chapter12/Queue/Queue.h:58-75 | In every reachable state the front is the claim count modulo the size, the count is reservations minus claims, every held slot is its ticket modulo the size, and front plus count is below twice the size |
| QueueMemory.WindowInjective | Chapter12/Queue/Queue.h:58-58 | Tickets less than the size apart use different cells |
| QueueCells.NothingIsInvented | Chapter12/Queue/Queue.h:62-78 | In every reachable state, for any threads and any order of posts, each cell holds the item of the ticket last written to it or its first content, so every delivery, right or wrong, is an item pushed through the cell of its ticket or that first content |
| QueueLock.CriticalSectionReduction | Chapter12/Queue/Queue.h:57-77 | With every statement inside the lock a step of its own, completing the lock holder's bookkeeping maps the reachable states onto states of the system with atomic reservations and claims, and every state of that system is reached |
| QueueLock.LockAndHoldersIsOne | Chapter12/Queue/Queue.h:57-77 | The lock value and the threads between its wait and its post always add up to one |
| QueueLock.CountAlwaysInRange | Chapter14/SharedMemory/Queue/Queue.h:70-90 | Even in the middle of a critical section the count stays between 0 and the size |
| QueueLock.FreeLockIsAtomic | Chapter12/Queue/Queue.h:57-77 | Between critical sections the fields themselves are a reachable state of the atomic system |
| QueueLock.ExactSafetyBoundaryWithLock | Chapter12/Queue/Queue.h:52-81 | The safety boundary is the same for the statement-level system |
| QueueDrain.DrainTerminates | Chapter12/Sim/ProducerConsumerSim.cpp:89-96 | Once no push starts any more, every run that can go no further has taken exactly the steps left, at most seven times the size, and ends with all threads idle, an empty ring, pushed equal to popped, all push tokens home and everything delivered |
| QueueDrain.DrainRunCounts | Chapter12/Queue/Queue.h:52-81 | Every step other than a timeout or a new push uses up exactly one of the steps left |
| QueueDrain.DrainProgress | Chapter12/Queue/Queue.h:52-81 | As long as steps are left some thread can take one |
| QueueDrain.NeverStuck | Chapter14/SharedMemory/Queue/Queue.h:64-95 | In every reachable state some step other than a timeout is possible, and when all threads are idle the two semaphores add up to the size |
| QueueDrain.OnlyWaitsBlock | Chapter12/Queue/Queue.h:52-81 | A call is held up only in its timed wait, and there exactly as long as the semaphore is at 0; every thread in the middle of a call can take its next step |
| QueueProtocol.WaitsMayFail | Chapter12/Queue/Queue.h:52-71 | Waits of idle threads may fail in any state and in any number, and the calls that fail leave no trace |
| QueueLockDrain.DrainTerminatesWithLock | Chapter12/Queue/Queue.h:52-81 | The shutdown statement by statement: from any state reached with the lock, a drain run that can go no further has run exactly the statements left, at most sixteen times the size, and ends with the lock free, all threads idle, the ring empty, all tokens home and everything delivered |
| QueueLockDrain.LDrainRunCounts | Chapter12/Queue/Queue.h:52-81 | Every statement other than a timed-out wait or a new push, inside the lock or outside, uses up exactly one of the statements left |
| QueueLockDrain.HolderMovesOn | Chapter12/Queue/Queue.h:57-77 | The thread inside the lock always has a next statement it can run |
| QueueLockDrain.OnlyEnteringWaits | Chapter12/Queue/Queue.h:57-77 | The lock holds up nothing but entering it: threads outside take their other steps regardless of a holder, and enter exactly when there is none |
| QueueLockDrain.NeverStuckWithLock | Chapter14/SharedMemory/Queue/Queue.h:64-95 | With the lock a statement-level one, some statement other than a timed-out wait can run in every reachable state |
| QueueMemory.WholePushAppends | Chapter12/Queue/Queue.h:52-65 | An uninterrupted push appends its item to the contents and leaves the queue consistent |
| QueueMemory.WholePopRemovesFirst | Chapter12/Queue/Queue.h:67-81 | An uninterrupted pop takes the oldest item off the contents and leaves the queue consistent |
| QueueObject.PushIsFourSteps | Chapter12/Queue/Queue.h:52-65 | The object's uninterrupted push is the transition system's four producer steps taken in a row |
| QueueObject.PopIsFourSteps | Chapter12/Queue/Queue.h:67-81 | The object's uninterrupted pop is the transition system's four consumer steps taken in a row |
| QueueObject.Queue.constructor | Chapter12/Queue/Queue.h:34-42 | A new queue is empty, with all push tokens available and the lock free |
| QueueObject.Queue.ReserveUnderLock | Chapter12/Queue/Queue.h:57-61 | Returns the slot behind the last item, advances count and push counter, touches no cell and frees the lock |
| QueueObject.Queue.ClaimUnderLock | Chapter12/Queue/Queue.h:72-77 | Returns the front slot, moves the front on, adjusts the counters and frees the lock |
| QueueObject.Queue.Push | Chapter12/Queue/Queue.h:52-65 | Fails and changes nothing, or appends the item to the contents |
| QueueObject.Queue.Pop | Chapter12/Queue/Queue.h:67-81 | Fails and changes nothing, not even the target, or returns the item of the front cell, the oldest one, and removes it |
| Delivery.ExactlyOnceInOrder | Chapter12/Producer/Producer.cpp:20-36 | With one producer and one consumer, whatever the timeouts, the k-th item received has id 300000 times the producer's number plus k (modulo 2^32) and the data of the k-th item cooked in the run; what was cooked is received, being read, in the ring, or the one waiting item |
| Delivery.NothingGetsLost | Chapter12/Producer/Producer.cpp:20-36 | For any number of threads and any interleaving: a producer has cooked as often as the run says, its cooked count is its pushes plus the waiting item, the waiting item is the last it cooked, pushes are deliveries plus items being read plus items in the ring, and the k-th push of a producer is, id and data, the k-th item it cooked |
| Delivery.OrderedDelivery | Chapter12/Consumer/Consumer.cpp:27-31 | For any number of threads with posts in ticket order, every delivery is, id and data, the next item cooked by the producer that pushed its ticket, and no ticket is delivered twice |
| Delivery.RetryKeepsItem | Chapter12/Producer/Producer.cpp:33-35 | A push may time out any number of times, which changes nothing, and the same item can be pushed as soon as there is a token |
| Delivery.FailedPopChangesNothing | Chapter12/Consumer/Consumer.cpp:27-31 | A pop may time out whenever its consumer is idle, and changes nothing then |
| Delivery.SelfOrderedSystemRun | Chapter14/SharedMemory/Producer/Producer.cpp:28-36 | Producers that retry their saved item do not disturb ticket order: one producer with one consumer, and a ring of one cell, keep it in every run of the whole system |
| Delivery.DrainedHasDeliveredAll | Chapter12/Sim/ProducerConsumerSim.cpp:89-96 | After the shutdown order has run its course with one producer and one consumer, all that was cooked has been received except an item whose push never succeeded |
| DeliveryBoundary.ExactDeliveryBoundary | Chapter12/Producer/Producer.cpp:28-36 | For the whole system of cooking, retrying producers and consumers: in all runs slots are safe, and in all runs every delivery is, id and data, the item its producer cooked for that ticket, if and only if the ring has one cell or there are one producer and one consumer |
| DeliveryBoundary.CookedIffLogged | Chapter12/Producer/Producer.cpp:28-36 | A run delivers what was cooked for each ticket if and only if it delivers what was pushed with it |
| DeliveryBoundary.WrongSystemRun | Chapter12/Consumer/Consumer.cpp:27-31 | Outside those shapes, for every size, a run of the whole system is constructed in which a consumer receives other data than was cooked for its ticket |
| DeliveryBoundary.FollowRun | Chapter12/Producer/Producer.cpp:28-36 | Every run of the queue, whatever it pushes, is up to ids and timed-out waits a run of producers that cook, keep and push |
| Workers.Producer.CookItem | Chapter12/Producer/Producer.cpp:20-26 | Gives the item the next id, which wraps at 2^32, fills the data with the drawn letters, terminates it and leaves the rest of the buffer alone |
| Workers.Producer.Work | Chapter12/Producer/Producer.cpp:28-36 | Cooks unless an item is saved, with the next id and the drawn letters; keeps the item, data and all, until a push succeeds; and appends exactly that item to the queue when one does |
| Workers.Consumer.Work | Chapter12/Consumer/Consumer.cpp:27-31 | Consumes the item in the front cell if the pop succeeds, which is the oldest one of a consistent queue, and changes nothing otherwise |
| Workers.WireWorkers | Chapter12/Sim/ProducerConsumerSim.cpp:72-85 | Workers get consecutive ids, and worker k belongs to the queue of core k divided by the workers per core |
| Items.DisjointIff | Chapter12/Producer/Producer.cpp:11-21 | Any two producers give out no common id, round the 32-bit range, if and only if neither has cooked as many items as it takes to reach the other's first id |
| Items.NeighboursStayDisjoint | Chapter12/Producer/Producer.cpp:11-11 | Two producers with neighbouring numbers, wherever their blocks wrap, give out no common id if and only if each has cooked at most 300000 items |
| Items.BlocksAreDisjoint | Chapter12/Producer/Producer.cpp:11-11 | The blocks of 300000 ids stay apart for all producer numbers up to 14315 apart, and meet at the next distance |
| MessageLink.ReceivedInOrder | Chapter14/MessageQueue/Producer/Producer.cpp:37-51 | In every run: cooked items are the produced count plus the failed sends, produced minus consumed is what is in the channel, and the received ids are a selection of the cooked ones at increasing positions, strictly increasing before they wrap |
| MessageLink.LosslessIffNoFailure | Chapter14/MessageQueue/Producer/Producer.cpp:44-46 | The received and queued items are all that was cooked if and only if no send failed |
| MessageLink.EveryWorkCounts | Chapter14/MessageQueue/Consumer/Consumer.cpp:27-54 | After every run, counted from its own works: an open producer has cooked an item around the data of each send, the items of the sends that succeeded are, in order, those received and then those in the channel, an open consumer has received and counted exactly the messages that arrived, and a closed end has done nothing |
| MessageLink.WhatCanComeNext | Chapter14/MessageQueue/Producer/Producer.cpp:43-45 | With both ends open a send can always fail and can succeed exactly while fewer items than the capacity are on their way, and a receive can always time out and can succeed exactly while one is |
| MessageLink.MessageProducer.Work | Chapter14/MessageQueue/Producer/Producer.cpp:37-51 | Uses up an id whether or not the send succeeds, counts and sends only on success, and does nothing when the queue could not be opened; that is one step of the link |
| MessageLink.MessageConsumer.Work | Chapter14/MessageQueue/Consumer/Consumer.cpp:36-54 | Takes the oldest message and counts it, or changes nothing; that is one step of the link |
| Checksum.ClosedForm | Chapter15/Common/WorkItem.h:18-36 | For a buffer of any length, the word loop, pattern, 32-bit rotation and fold together are the 16-bit rotation of the XOR of all halfwords and 0xAF76 |
| Checksum.FoldRotates | Chapter15/Common/WorkItem.h:27-35 | Folding to 16 bits turns the 32-bit rotation into the 16-bit one |
| Checksum.SameSum | Chapter15/Common/WorkItem.h:48-51 | Two buffers have the same checksum if and only if the XOR of their halfwords is the same |
| Detection.AcceptedIffEvenColumns | Chapter15/Common/WorkItem.h:48-51 | Changed data of the same length has the old checksum if and only if an even number of bits is flipped in each of the 16 columns of bit positions equal modulo 16 |
| Detection.SumBits | Chapter15/Common/WorkItem.h:18-36 | The checksum bit by bit: its bit i + 1 (bit 0 for i = 15) says whether an odd number of data bits is set at positions equal to i modulo 16, turned over where 0xAF76 has a bit |
| Detection.BurstDetected | Chapter15/Common/WorkItem.h:48-51 | Every change confined to 16 consecutive bits changes the checksum |
| Detection.OddFlipsDetected | Chapter15/Common/WorkItem.h:48-51 | Every odd number of flipped bits changes the checksum |
| Detection.PermutationAccepted | Chapter15/Common/WorkItem.h:18-36 | Any rearrangement of the halfwords has the same checksum |
| ChecksumItem.WorkItem.constructor | Chapter15/Common/WorkItem.h:39-46 | Byte i of the buffer is byte i of the data below the length and 0 from there on, or all 0 without data; character i of the name field is that of the name and a terminator from its end on, cut at 30; and the checksum is that of the data, so the item validates |
| ChecksumItem.WorkItem.GenerateChecksum | Chapter15/Common/WorkItem.h:18-36 | The loop over the buffer computes the checksum function |
| ChecksumItem.RotateAndFold | Chapter15/Common/WorkItem.h:26-35 | Testing the top bit and shifting is the 32-bit rotation |
| ChecksumItem.BuildChangeValidate | Chapter15/Common/WorkItem.h:39-51 | An item built by a client and changed on the way validates if and only if the change is even in every column |
| Router.RoutingIsSafe | AdaptiveThreadPool/src/AdaptiveThreadPool/AdaptiveThreadPool.cpp:211-250 | After any run of jobs and timer scans, with jobs arriving between the scans of one timer round, every policy picks an existing worker, and every same-core policy one of the caller's core |
| Router.FirstPicks | AdaptiveThreadPool/src/AdaptiveThreadPool/AdaptiveThreadPool.cpp:3-13 | On a fresh pool the first round-robin and least-loaded picks are each core's first worker, and worker 0 for the pool |
| Router.RandomReachesAll | AdaptiveThreadPool/src/AdaptiveThreadPool/AdaptiveThreadPool.cpp:239-245 | A random pick depends on the draw modulo the number of candidates, and draw k picks the k-th of them, of the pool or of the caller's core, so every one is reached |
| Router.FailsIffNothingToDraw | AdaptiveThreadPool/src/AdaptiveThreadPool/AdaptiveThreadPool.cpp:239-245 | A policy divides by zero exactly if it draws and there is nothing to draw from |
| Router.AcceptedIsSafeIff | AdaptiveThreadPool/src/AdaptiveThreadPool/AdaptiveThreadPool.cpp:42-49 | An accepted configuration serves every policy on every core after every run if and only if it asks for a worker per core and the product of cores and workers per core, before it wraps, is at most 128 |
| Router.WrappedIsAccepted | AdaptiveThreadPool/src/AdaptiveThreadPool/AdaptiveThreadPool.cpp:45-46 | Two configurations that pass the check because the product wraps: one with no worker, and one with four in which core 1 begins at worker 0x40000001 |
| Router.PoolMinIsACoreMin | AdaptiveThreadPool/src/AdaptiveThreadPool/AdaptiveThreadPool.cpp:154-182 | On one snapshot the pool's first least-loaded worker is that of its core, and that core is the first with the least minimum |
| Router.TimerRoundEffect | AdaptiveThreadPool/src/AdaptiveThreadPool/AdaptiveThreadPool.cpp:154-182 | A timer round sets the pool's choice and every core's choice, each to the first least-loaded worker in the counts its own scan read, and no other cursor |
| Router.FirstMin | AdaptiveThreadPool/src/AdaptiveThreadPool/AdaptiveThreadPool.cpp:155-164 | The scan's answer is the lowest index of a smallest count |
| Router.DealingIff | AdaptiveThreadPool/src/AdaptiveThreadPool/AdaptiveThreadPool.cpp:82-124 | The ways dealing the queues can end, exactly, by queue type, workers and factor: everyone has a queue if and only if there is no worker, or the factor is 1 (exclusive) or divides the workers (shared); workers are left without a queue if and only if there are some and the factor is 0 (exclusive) or makes the 32-bit sum wrap (shared); in all other cases the loop runs out of workers |
| Router.JustEnoughQueues | AdaptiveThreadPool/src/AdaptiveThreadPool/AdaptiveThreadPool.cpp:86-88 | Unless the sum wraps, the shared queues are just enough: they cover all workers and one queue fewer would not |
| Router.LeftOutMeansAll | AdaptiveThreadPool/src/AdaptiveThreadPool/AdaptiveThreadPool.cpp:82-124 | If anyone is left without a queue, no queue was dealt at all |
| Router.EachQueueServes | AdaptiveThreadPool/src/AdaptiveThreadPool/AdaptiveThreadPool.cpp:116-124 | When everyone has a queue, each queue is dealt to exactly `share factor` workers and every worker has one that exists |
| Router.StartsWellIff | AdaptiveThreadPool/src/AdaptiveThreadPool/AdaptiveThreadPool.cpp:15-40 | The pool starts with a queue for every worker it asks for if and only if the policy is allowed, the unwrapped number of workers is at most 128, and the factor fits the queue type |
| Router.StartFailsIff | AdaptiveThreadPool/src/AdaptiveThreadPool/AdaptiveThreadPool.cpp:42-93 | What stops a start, exactly: the check refuses if the policy is not allowed or the wrapped count exceeds 128, else a shared factor of 0 divides by zero, else too large an unwrapped product overruns the worker array |
| Fairness.CoreRoundRobinIsFair | AdaptiveThreadPool/src/AdaptiveThreadPool/AdaptiveThreadPool.cpp:215-223 | Over any run with any mix of policies, cores and scans, in any window of n jobs that same-core round robin places on a core each of its w workers is given floor(n/w) or ceiling(n/w) |
| Fairness.PoolRoundRobinIsFair | AdaptiveThreadPool/src/AdaptiveThreadPool/AdaptiveThreadPool.cpp:228-235 | The same for round robin over all workers |
| Fairness.CoreRoundRobinInTurn | AdaptiveThreadPool/src/AdaptiveThreadPool/AdaptiveThreadPool.cpp:215-223 | Over any such run the k-th same-core round-robin job on a core is given to that core's worker number k modulo its workers |
| Fairness.PoolRoundRobinInTurn | AdaptiveThreadPool/src/AdaptiveThreadPool/AdaptiveThreadPool.cpp:228-235 | Over any run the k-th round-robin job is given to worker k modulo the number of workers |
| Fairness.TimesServed | AdaptiveThreadPool/src/AdaptiveThreadPool/AdaptiveThreadPool.cpp:218-221 | Exactly how often a turning cursor meets each worker, from any starting point |
| Fairness.LeastJobsFollowsLastScan | AdaptiveThreadPool/src/AdaptiveThreadPool/AdaptiveThreadPool.cpp:165-165 | From one scan of the pool to the next, whatever jobs are added and cores are scanned, least-loaded picks go to the first least-loaded worker in the counts that scan read |
| Fairness.SameCoreLeastJobsFollowsLastScan | AdaptiveThreadPool/src/AdaptiveThreadPool/AdaptiveThreadPool.cpp:180-180 | The same for each core between two scans of that core |
| ThreadPool.AdaptiveThreadPool.InitializeStatistics | AdaptiveThreadPool/src/AdaptiveThreadPool/AdaptiveThreadPool.cpp:3-13 | Every core's cursors start at its first worker |
| ThreadPool.AdaptiveThreadPool.CheckAndAdjustConfig | AdaptiveThreadPool/src/AdaptiveThreadPool/AdaptiveThreadPool.cpp:42-93 | Sets the worker and queue counts, both by 32-bit arithmetic, or refuses more than 128 counted workers, a policy the user may not set, or divides by a factor of 0 |
| ThreadPool.AdaptiveThreadPool.CreateJobWorkers | AdaptiveThreadPool/src/AdaptiveThreadPool/AdaptiveThreadPool.cpp:102-114 | Worker k is placed on core k divided by the workers per core, and the loop stays inside the worker array if and only if the unwrapped product is at most 128 |
| ThreadPool.AdaptiveThreadPool.AssignQueuesToWorkers | AdaptiveThreadPool/src/AdaptiveThreadPool/AdaptiveThreadPool.cpp:116-124 | Worker k gets queue k divided by the share factor for every k below queues times factor, the others keep what they had, and the loop runs out of workers exactly when there are fewer than queues times factor |
| ThreadPool.AdaptiveThreadPool.ConfigAndStartWorkers | AdaptiveThreadPool/src/AdaptiveThreadPool/AdaptiveThreadPool.cpp:15-40 | Check, creation and dealing in a row: refused, divided by 0, too many workers for the array, or started; when it starts well worker k has its core and its queue and every queue exactly the share factor of workers, and when workers are left out none has a queue |
| ThreadPool.AdaptiveThreadPool.UpdateLeastJobs | AdaptiveThreadPool/src/AdaptiveThreadPool/AdaptiveThreadPool.cpp:154-182 | The two loops of a timer round have the effect of its scans, even if the counts change between the first and the second |
| ThreadPool.AdaptiveThreadPool.AddJob | AdaptiveThreadPool/src/AdaptiveThreadPool/AdaptiveThreadPool.cpp:211-250 | Picks by policy and moves only the round-robin cursor it used |
| Numerals.Itoa | Chapter14/SharedMemory/Sim/SharedMem.h:8-30 | The in-place emission and reversal leave the canonical text and a terminator in the first len + 1 cells and touch no other |
| Numerals.EmitDigits | Chapter14/MessageQueue/Sim/SharedMem.h:19-23 | The digit loop writes the digits lowest first |
| Numerals.TurnRound | Chapter14/MessageQueue/Sim/SharedMem.h:26-31 | The swapping loop reverses the text in place |
| Numerals.TextIsCanonical | Chapter14/SharedMemory/Sim/SharedMem.h:8-30 | For every base from 2 to 36 the text has the number's value, digits only, no leading zero, and length len with base^(len-1) <= n < base^len, and is "0" for 0 |
| Numerals.DigitsByPlace | Chapter14/SharedMemory/Sim/SharedMem.h:20-20 | The digit for r is the r-th of 0 to 9 and A to Z, and counts as r |
| Numerals.CanonicalIsUnique | Chapter14/SharedMemory/Sim/SharedMem.h:15-21 | A text of digits without leading zero is the digits of its value, so the canonical text is the only one |
| Numerals.Atoi | Chapter15/Client/Client.cpp:5-18 | The loop over the buffer computes the parser function up to the terminator and never holds more than INT_MAX |
| Numerals.ParserIsExact | Chapter15/Client/Client.cpp:3-18 | A text of digits gives its value if that fits an int; another character gives 10 unless the digits before it already overflow |
| Numerals.ParsePrinted | Chapter15/Client/Client.cpp:5-18 | Parsing the decimal text of n gives n if n is at most 2^31 - 1 and overflows otherwise |
| Numerals.NeverAbove | Chapter15/Client/Client.cpp:12-13 | While reading the text of n the parser never holds a value above n |
| Numerals.PrintThenParse | Chapter14/SharedMemory/Sim/SharedMem.h:8-30 | Printing into a buffer and parsing the same buffer gives the number back |
| Numerals.BufferSizes | Chapter14/SharedMemory/Sim/ProducerConsumerSim.cpp:67-72 | Every unsigned int fits the 12-character buffers, and exactly the numbers below 1000 fit the 4-character one |

## Left out

- Threads, affinity, priorities, clocks and sleeping: foreign calls. What remains of them is that `work` is repeated, that a wait may time out, and that a producer stops between works.
- Queues of size 0 or less: a push on an empty ring never gets a token, and a negative size fails on allocation.
- Tearing of a cell while two threads copy it: a cell is written and read in one step.
- QueueObject.Queue.Push: describes a push that no other thread interrupts; interleavings are the subject of the transition system, which uses the same memory functions.
- QueueObject.Queue.Pop: describes a pop that no other thread interrupts, like Push.
- Workers.Producer.Work: describes a call whose push no other thread interrupts; `Delivery` has the interleavings.
- Workers.Consumer.Work: describes a call whose pop no other thread interrupts, like the producer's.
- ChecksumItem.WorkItem.constructor: requires a data length of at most 512 and as many bytes; the source copies whatever length it is given, past the buffer.
- ThreadPool.AdaptiveThreadPool.UpdateLeastJobs: describes a round in which no job arrives; `Router` lets jobs arrive between the scans.
- Kernel failures of `sem_wait` and `sem_post`, and the printing in constructors and destructors.
- The mains of the simulations: option parsing, process creation, shared memory and message-queue set-up.
- The message queue's priorities: every send uses the same one, so the channel is a FIFO.
- Chapter15 sockets and event loop: network I/O.
- Thread-pool worker and queue internals, which the repository does not contain, priority clamping and the locks around the cursors, which make each cursor update one step.
- Scheduling a caller on a core that is not counted among the online ones: the core number is taken to be below the core count.
- Numerals.Itoa: requires a base from 2 to 36 and a large enough buffer; the source checks neither.
- Chapter10's tree helpers and the exercises of Chapters 1 to 8: stubs or single calls.
