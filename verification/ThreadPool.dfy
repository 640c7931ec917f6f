/** The thread pool object: its statistics arrays and the loops that set them up, update them and pick from them. */
module ThreadPool {
  import opened Arithmetic
  import opened Blocks
  import opened Router
  import opened Wrappers

  class AdaptiveThreadPool {
    const pool: Pool
    const queueType: QueueType
    const shareFactor: Word
    const coreOfWorker: array<nat>
    const queueOfWorker: array<Option<nat>>
    const nextOnCore: array<nat>
    const leastOnCore: array<nat>
    var workerCount: Word
    var queueCount: Word
    var nextGlobal: nat
    var leastGlobal: nat

    ghost predicate Valid()
      reads this
    {
      && coreOfWorker.Length == queueOfWorker.Length == MAX_WORKER_COUNT
      && nextOnCore.Length == leastOnCore.Length == MAX_WORKER_COUNT
      && nextOnCore != leastOnCore
    }

    ghost function View(): Cursors
      reads this, nextOnCore, leastOnCore
    {
      Cursors(nextGlobal, leastGlobal, nextOnCore[..], leastOnCore[..])
    }

    constructor (pool: Pool, queueType: QueueType, shareFactor: Word)
      ensures Valid() && this.pool == pool && this.queueType == queueType && this.shareFactor == shareFactor
      ensures fresh(coreOfWorker) && fresh(queueOfWorker) && fresh(nextOnCore) && fresh(leastOnCore)
      ensures View() == Initial(pool)
    {
      this.pool, this.queueType, this.shareFactor := pool, queueType, shareFactor;
      coreOfWorker := new nat[MAX_WORKER_COUNT];
      queueOfWorker := new Option<nat>[MAX_WORKER_COUNT](_ => None);
      nextOnCore := new nat[MAX_WORKER_COUNT];
      leastOnCore := new nat[MAX_WORKER_COUNT];
      workerCount, queueCount := 0, 0;
      nextGlobal, leastGlobal := 0, 0;
      new;
      InitializeStatistics();
    }

    // Every core's cursors start at its first worker, the global ones at worker 0.
    method InitializeStatistics()
      requires Valid()
      modifies this`nextGlobal, this`leastGlobal, nextOnCore, leastOnCore
      ensures View() == Initial(pool)
    {
      nextGlobal, leastGlobal := 0, 0;
      for i := 0 to MAX_WORKER_COUNT
        modifies nextOnCore, leastOnCore
        invariant forall c :: 0 <= c < i ==> nextOnCore[c] == FirstOf(pool, c) && leastOnCore[c] == FirstOf(pool, c)
      {
        nextOnCore[i] := Wrap(i * pool.perCore);
        leastOnCore[i] := Wrap(i * pool.perCore);
      }
    }

    // Sets the worker and queue counts, or refuses the configuration.
    method CheckAndAdjustConfig(mayUsePolicy: bool) returns (checked: Checked)
      requires Valid()
      modifies this`workerCount, this`queueCount
      ensures Valid() && checked == CheckConfig(pool, mayUsePolicy, queueType, shareFactor)
      ensures checked.Accepted? ==>
                workerCount == checked.workers == pool.WorkerCount() <= MAX_WORKER_COUNT && queueCount == checked.queues
    {
      hide Wrap;
      workerCount := Wrap(pool.cores * pool.perCore);
      if workerCount > MAX_WORKER_COUNT || !mayUsePolicy {
        return Rejected;
      }
      match queueType {
        case Exclusive => queueCount := workerCount;
        case Shared =>
          if shareFactor == 0 {
            return BadFactor;
          }
          var rounded := Wrap(workerCount + shareFactor - 1);
          QuotientFits(rounded, shareFactor);
          queueCount := rounded / shareFactor;
      }
      checked := Accepted(workerCount, queueCount);
    }

    // Workers are numbered core by core, `perCore` on each, and have no queue yet. `ok` is false when there is no
    // room for a worker: the loops count to the true product, not to the worker count.
    method CreateJobWorkers() returns (ok: bool)
      requires Valid()
      modifies coreOfWorker, queueOfWorker
      ensures ok <==> pool.Workers() <= MAX_WORKER_COUNT
      ensures ok && pool.perCore > 0 ==>
                forall k :: 0 <= k < pool.Workers() ==> coreOfWorker[k] == BlockOf(k, pool.perCore)
      ensures ok ==> forall k :: 0 <= k < pool.Workers() ==> queueOfWorker[k] == None
    {
      var workerId := 0;
      for core := 0 to pool.cores
        invariant workerId == core * pool.perCore <= pool.Workers() && workerId <= MAX_WORKER_COUNT
        invariant pool.perCore > 0 ==> forall k :: 0 <= k < workerId ==> coreOfWorker[k] == BlockOf(k, pool.perCore)
        invariant forall k :: 0 <= k < workerId ==> queueOfWorker[k] == None
      {
        BlockFits(core, pool.cores, pool.perCore);
        for i := 0 to pool.perCore
          invariant workerId == core * pool.perCore + i <= MAX_WORKER_COUNT
          invariant pool.perCore > 0 ==> forall k :: 0 <= k < workerId ==> coreOfWorker[k] == BlockOf(k, pool.perCore)
          invariant forall k :: 0 <= k < workerId ==> queueOfWorker[k] == None
        {
          if workerId == MAX_WORKER_COUNT {
            return false;
          }
          BlockMember(core, i, pool.perCore);
          coreOfWorker[workerId], queueOfWorker[workerId] := core, None;
          workerId := workerId + 1;
        }
      }
      ok := true;
    }

    // Deals the queues out; `ok` is false when the loop asks for a worker that does not exist.
    method AssignQueuesToWorkers() returns (ok: bool)
      requires Valid() && workerCount <= MAX_WORKER_COUNT
      modifies queueOfWorker
      ensures ok <==> !DealingOf(workerCount, queueCount, shareFactor).OutOfWorkers?
      ensures forall k :: 0 <= k < workerCount ==>
                queueOfWorker[k] ==
                if k < queueCount * shareFactor then Some(DealtTo(k, shareFactor)) else old(queueOfWorker[k])
    {
      var nextWorker := 0;
      for q := 0 to queueCount
        invariant nextWorker == q * shareFactor <= queueCount * shareFactor
        invariant nextWorker <= workerCount
        invariant shareFactor > 0 ==>
                    forall k :: 0 <= k < nextWorker ==> queueOfWorker[k] == Some(DealtTo(k, shareFactor))
        invariant forall k :: nextWorker <= k < workerCount ==> queueOfWorker[k] == old(queueOfWorker[k])
      {
        BlockFits(q, queueCount, shareFactor);
        for i := 0 to shareFactor
          invariant nextWorker == q * shareFactor + i <= workerCount
          invariant shareFactor > 0 ==>
                      forall k :: 0 <= k < nextWorker ==> queueOfWorker[k] == Some(DealtTo(k, shareFactor))
          invariant forall k :: nextWorker <= k < workerCount ==> queueOfWorker[k] == old(queueOfWorker[k])
        {
          if nextWorker == workerCount {
            return false;
          }
          BlockMember(q, i, shareFactor);
          queueOfWorker[nextWorker] := Some(q);
          nextWorker := nextWorker + 1;
        }
      }
      ok := true;
    }

    // Checks the configuration, creates the workers and deals the queues. When the pool starts well, worker k is on
    // core k / perCore with queue k / shareFactor, and every queue serves exactly shareFactor workers.
    method ConfigAndStartWorkers(mayUsePolicy: bool) returns (start: StartUp)
      requires Valid()
      modifies this`workerCount, this`queueCount, coreOfWorker, queueOfWorker
      ensures Valid() && start == StartUpOf(pool, mayUsePolicy, queueType, shareFactor)
      ensures start == Started(EveryoneServed) ==>
                forall k :: 0 <= k < pool.Workers() ==>
                  && pool.perCore > 0 && coreOfWorker[k] == BlockOf(k, pool.perCore)
                  && shareFactor > 0 && queueOfWorker[k] == Some(DealtTo(k, shareFactor))
      ensures start == Started(EveryoneServed) && pool.Workers() > 0 ==>
                shareFactor > 0 && forall q: nat :: multiset(Dealt(pool.Workers(), shareFactor))[q] ==
                                                    if q < queueCount then shareFactor else 0
      ensures start == Started(SomeLeftOut) ==>
                pool.Workers() > 0 && forall k :: 0 <= k < pool.Workers() ==> queueOfWorker[k] == None
    {
      hide QueueCount;
      var checked := CheckAndAdjustConfig(mayUsePolicy);
      match checked {
        case Rejected => return Refused;
        case BadFactor => return DividesByFactor;
        case Accepted(_, _) =>
      }
      var created := CreateJobWorkers();
      if !created {
        return TooManyWorkers;
      }
      var dealt := AssignQueuesToWorkers();
      start := Started(if !dealt then OutOfWorkers
                       else if queueCount * shareFactor == workerCount then EveryoneServed else SomeLeftOut);
      StartedWell(start);
    }

    lemma StartedWell(start: StartUp)
      requires Valid() && workerCount == pool.Workers() <= MAX_WORKER_COUNT
      requires queueType.Shared? ==> shareFactor >= 1
      requires queueCount == QueueCount(queueType, workerCount, shareFactor)
      requires start == Started(DealingOf(workerCount, queueCount, shareFactor))
      ensures start == Started(EveryoneServed) && workerCount > 0 ==>
                && shareFactor > 0 && pool.perCore > 0
                && forall q: nat :: multiset(Dealt(pool.Workers(), shareFactor))[q] ==
                                    if q < queueCount then shareFactor else 0
      ensures start == Started(SomeLeftOut) ==> queueCount * shareFactor == 0 && workerCount > 0
    {
      hide QueueCount, Dealt;
      if start == Started(EveryoneServed) && workerCount > 0 {
        forall q: nat
          ensures multiset(Dealt(pool.Workers(), shareFactor))[q] == if q < queueCount then shareFactor else 0
        {
          EachQueueServes(workerCount, queueCount, shareFactor, q);
        }
      } else if start == Started(SomeLeftOut) {
        LeftOutMeansAll(queueType, workerCount, shareFactor);
      }
    }

    // One round of the timer: the least-loaded worker of the pool, then of each core. The counts are read twice, and
    // may have changed from the first scan to the second.
    method UpdateLeastJobs(poolCounts: seq<nat>, coreCounts: seq<nat>)
      requires Valid() && Running(pool) && workerCount == pool.Workers() == |poolCounts| == |coreCounts|
      modifies this`leastGlobal, leastOnCore
      ensures Valid() && View() == HandleAll(pool, old(View()), TimerRound(pool, poolCounts, coreCounts))
    {
      hide FirstMin, HandleAll, TimerRound;
      RunningCores(pool);
      leastGlobal := LeastOf(poolCounts, 0, workerCount);
      var start := 0;
      for core := 0 to pool.cores
        modifies leastOnCore
        invariant start == core * pool.perCore
        invariant forall c :: 0 <= c < core ==> leastOnCore[c] == CoreMin(pool, coreCounts, c)
        invariant forall c :: core <= c < MAX_WORKER_COUNT ==> leastOnCore[c] == old(leastOnCore[c])
      {
        BlockFits(core, pool.cores, pool.perCore);
        leastOnCore[core] := LeastOf(coreCounts, start, pool.perCore);
        start := start + pool.perCore;
      }
      TimerRoundEffect(pool, old(View()), poolCounts, coreCounts);
    }

    // The scan both halves of the update make: the first of `count` workers from `start` with the fewest jobs.
    method LeastOf(jobs: seq<nat>, start: nat, count: nat) returns (leastWorker: nat)
      requires 1 <= count && start + count <= |jobs|
      ensures leastWorker == FirstMin(jobs, start, start + count)
    {
      var leastJobs := jobs[start];
      leastWorker := start;
      for i := 1 to count
        invariant leastWorker == FirstMin(jobs, start, start + i) && leastJobs == jobs[leastWorker]
      {
        if jobs[start + i] < leastJobs {
          leastJobs, leastWorker := jobs[start + i], start + i;
        }
      }
    }

    // Picks a worker for a job that arrives on `core`, and moves the round-robin cursor it used.
    method AddJob(policy: Policy, core: nat, draw: nat) returns (choice: Choice)
      requires Valid() && core < MAX_WORKER_COUNT && workerCount == pool.WorkerCount()
      modifies this`nextGlobal, nextOnCore
      ensures Valid() && choice == Pick(pool, old(View()), policy, core, draw)
      ensures View() == AfterPick(pool, old(View()), policy, core)
    {
      match policy
      case SameCoreRoundRobin =>
        choice := Worker(nextOnCore[core]);
        nextOnCore[core] := Wrap(nextOnCore[core] + 1);
        if nextOnCore[core] == Wrap((core + 1) * pool.perCore) {
          nextOnCore[core] := Wrap(core * pool.perCore);
        }
      case SameCoreLeastJobs =>
        choice := Worker(leastOnCore[core]);
      case RoundRobin =>
        choice := Worker(nextGlobal);
        nextGlobal := Wrap(nextGlobal + 1);
        if nextGlobal == workerCount {
          nextGlobal := 0;
        }
      case LeastJobs =>
        choice := Worker(leastGlobal);
      case SameCoreRandom =>
        if pool.perCore == 0 {
          return DividesByZero;
        }
        choice := Worker(Wrap(core * pool.perCore + draw % pool.perCore));
      case Random =>
        if workerCount == 0 {
          return DividesByZero;
        }
        choice := Worker(draw % workerCount);
    }
  }
}
