/**
 How the thread pool chooses a worker for a job: round-robin cursors for each core and for the whole pool,
 least-loaded choices refreshed by a timer, and random draws. Workers are numbered core by core. All counts and
 indices are 32-bit unsigned, and wrap around like the program's.
 */
module Router {
  import opened Arithmetic
  import opened Blocks

  const MAX_WORKER_COUNT: nat := 128

  datatype Policy =
    | SameCoreRoundRobin | SameCoreLeastJobs | RoundRobin | LeastJobs | SameCoreRandom | Random
  {
    predicate SameCore() { SameCoreRoundRobin? || SameCoreLeastJobs? || SameCoreRandom? }
  }

  datatype Pool = Pool(cores: Word, perCore: Word) {
    // How many workers the configuration asks for.
    function Workers(): nat { cores * perCore }

    // How many the program believes it has.
    function WorkerCount(): Word { Wrap(cores * perCore) }
  }

  // The statistics the router works from.
  datatype Cursors = Cursors(nextGlobal: nat, leastGlobal: nat, nextOnCore: seq<nat>, leastOnCore: seq<nat>)

  // Taking the remainder of a random draw fails when there is nothing to draw from.
  datatype Choice = Worker(index: nat) | DividesByZero

  // A job that arrives on a core, with what `rand` will return; or one of the scans of a timer round, with the
  // job counts as it read them: the scan of the whole pool, or that of one core.
  datatype Event =
    | AddJob(policy: Policy, core: nat, draw: nat)
    | ScanPool(jobs: seq<nat>)
    | ScanCore(core: nat, jobs: seq<nat>)

  predicate Shaped(cur: Cursors) {
    |cur.nextOnCore| == |cur.leastOnCore| == MAX_WORKER_COUNT
  }

  function FirstOf(pool: Pool, core: nat): nat { Wrap(core * pool.perCore) }

  function Initial(pool: Pool): Cursors {
    Cursors(0, 0, seq(MAX_WORKER_COUNT, i requires 0 <= i => FirstOf(pool, i)),
            seq(MAX_WORKER_COUNT, i requires 0 <= i => FirstOf(pool, i)))
  }

  function Pick(pool: Pool, cur: Cursors, policy: Policy, core: nat, draw: nat): Choice
    requires Shaped(cur) && core < MAX_WORKER_COUNT
  {
    match policy
    case SameCoreRoundRobin => Worker(cur.nextOnCore[core])
    case SameCoreLeastJobs => Worker(cur.leastOnCore[core])
    case RoundRobin => Worker(cur.nextGlobal)
    case LeastJobs => Worker(cur.leastGlobal)
    case SameCoreRandom =>
      if pool.perCore == 0 then DividesByZero else Worker(Wrap(core * pool.perCore + draw % pool.perCore))
    case Random =>
      if pool.WorkerCount() == 0 then DividesByZero else Worker(draw % pool.WorkerCount())
  }

  // A cursor goes up by one and starts over at `low` when it reaches `high`.
  function Turn(cursor: nat, low: nat, high: nat): nat {
    var next := Wrap(cursor + 1);
    if next == high then low else next
  }

  function AfterPick(pool: Pool, cur: Cursors, policy: Policy, core: nat): (cur': Cursors)
    requires Shaped(cur) && core < MAX_WORKER_COUNT
    ensures Shaped(cur')
  {
    match policy
    case SameCoreRoundRobin =>
      cur.(nextOnCore := cur.nextOnCore[core :=
        Turn(cur.nextOnCore[core], FirstOf(pool, core), FirstOf(pool, core + 1))])
    case RoundRobin => cur.(nextGlobal := Turn(cur.nextGlobal, 0, pool.WorkerCount()))
    case _ => cur
  }

  predicate InBlock(pool: Pool, core: nat, k: nat) {
    core * pool.perCore <= k < core * pool.perCore + pool.perCore
  }

  // The lowest index of a smallest count in jobs[low..high].
  function FirstMin(jobs: seq<nat>, low: nat, high: nat): (k: nat)
    requires low < high <= |jobs|
    ensures low <= k < high
    ensures forall i :: low <= i < high ==> jobs[k] <= jobs[i]
    ensures forall i :: low <= i < k ==> jobs[k] < jobs[i]
    decreases high
  {
    if high == low + 1 then low
    else
      var k := FirstMin(jobs, low, high - 1);
      if jobs[high - 1] < jobs[k] then high - 1 else k
  }

  function PoolMin(pool: Pool, jobs: seq<nat>): (k: nat)
    requires Running(pool) && |jobs| == pool.Workers()
    ensures k < |jobs|
    ensures forall i :: 0 <= i < |jobs| ==> jobs[k] <= jobs[i]
    ensures forall i :: 0 <= i < k ==> jobs[k] < jobs[i]
  {
    RunningCores(pool);
    FirstMin(jobs, 0, pool.Workers())
  }

  function CoreMin(pool: Pool, jobs: seq<nat>, core: nat): (k: nat)
    requires core < pool.cores && |jobs| == pool.Workers() && 1 <= pool.perCore
    ensures InBlock(pool, core, k) && k < |jobs|
    ensures forall i :: 0 <= i < |jobs| && InBlock(pool, core, i) ==> jobs[k] <= jobs[i]
    ensures forall i :: 0 <= i < k && InBlock(pool, core, i) ==> jobs[k] < jobs[i]
  {
    BlockFits(core, pool.cores, pool.perCore);
    FirstMin(jobs, core * pool.perCore, (core + 1) * pool.perCore)
  }

  // A pool with workers that all fit the program's arrays.
  predicate Running(pool: Pool) {
    1 <= pool.cores && 1 <= pool.perCore && pool.Workers() <= MAX_WORKER_COUNT
  }

  lemma RunningCores(pool: Pool)
    requires Running(pool)
    ensures pool.cores <= MAX_WORKER_COUNT && pool.perCore <= MAX_WORKER_COUNT
    ensures 1 <= pool.Workers() == pool.WorkerCount()
  {
    AtLeastOnce(pool.cores, pool.perCore);
    MulMonotone(1, pool.perCore, pool.cores);
  }

  // In such a pool nothing the cursors are compared with has wrapped.
  lemma NothingWraps(pool: Pool, core: nat)
    requires Running(pool) && core <= MAX_WORKER_COUNT
    ensures FirstOf(pool, core) == core * pool.perCore < UINT_RANGE - MAX_WORKER_COUNT
  {
    hide Wrap;
    RunningCores(pool);
    MulMonotone(core, MAX_WORKER_COUNT, pool.perCore);
    InRangeWrapsToItself(core * pool.perCore);
  }

  // A timer scan looks at workers; where there are none, or more than the arrays hold, it fails on the first one
  // missing and sets nothing.
  predicate Possible(pool: Pool, e: Event) {
    match e
    case AddJob(_, core, _) => core < pool.cores && core < MAX_WORKER_COUNT
    case ScanPool(jobs) => Running(pool) && |jobs| == pool.Workers()
    case ScanCore(core, jobs) => Running(pool) && |jobs| == pool.Workers() && core < pool.cores
  }

  function Handle(pool: Pool, cur: Cursors, e: Event): (cur': Cursors)
    requires Shaped(cur) && Possible(pool, e)
    ensures Shaped(cur')
  {
    match e
    case AddJob(policy, core, _) => AfterPick(pool, cur, policy, core)
    case ScanPool(jobs) => cur.(leastGlobal := PoolMin(pool, jobs))
    case ScanCore(core, jobs) =>
      RunningCores(pool);
      cur.(leastOnCore := cur.leastOnCore[core := CoreMin(pool, jobs, core)])
  }

  // Every cursor points into the workers it is for.
  ghost predicate Aimed(pool: Pool, cur: Cursors) {
    && Shaped(cur)
    && cur.nextGlobal < pool.Workers() && cur.leastGlobal < pool.Workers()
    && (forall c :: 0 <= c < pool.cores && c < MAX_WORKER_COUNT ==>
          InBlock(pool, c, cur.nextOnCore[c]) && InBlock(pool, c, cur.leastOnCore[c]))
  }

  lemma AimedInitially(pool: Pool)
    requires Running(pool)
    ensures Aimed(pool, Initial(pool))
  {
    RunningCores(pool);
    forall c | 0 <= c < pool.cores && c < MAX_WORKER_COUNT
      ensures InBlock(pool, c, FirstOf(pool, c))
    {
      NothingWraps(pool, c);
    }
  }

  lemma NextBlock(core: nat, width: nat)
    ensures (core + 1) * width == core * width + width
  {
  }

  lemma AimedStep(pool: Pool, cur: Cursors, e: Event)
    requires Running(pool) && Aimed(pool, cur) && Possible(pool, e)
    ensures Aimed(pool, Handle(pool, cur, e))
  {
    hide FirstOf, FirstMin;
    RunningCores(pool);
    if e.AddJob? {
      NothingWraps(pool, e.core);
      NothingWraps(pool, e.core + 1);
      NextBlock(e.core, pool.perCore);
    }
  }

  // A pick that the pool can serve: below the worker count, and on the caller's core if the policy says so.
  predicate Served(pool: Pool, policy: Policy, core: nat, choice: Choice) {
    && choice.Worker?
    && choice.index < pool.WorkerCount()
    && (policy.SameCore() ==> pool.perCore >= 1 && BlockOf(choice.index, pool.perCore) == core)
  }

  lemma InBlockIsOnCore(pool: Pool, core: nat, k: nat)
    requires 1 <= pool.perCore && core < pool.cores && InBlock(pool, core, k)
    ensures k < pool.Workers() && BlockOf(k, pool.perCore) == core
  {
    BlockMember(core, k - core * pool.perCore, pool.perCore);
    BlockFits(core, pool.cores, pool.perCore);
  }

  lemma AimedPicksServe(pool: Pool, cur: Cursors, policy: Policy, core: nat, draw: nat)
    requires Running(pool) && Aimed(pool, cur) && core < pool.cores && core < MAX_WORKER_COUNT
    ensures Served(pool, policy, core, Pick(pool, cur, policy, core, draw))
  {
    RunningCores(pool);
    if policy.SameCore() {
      NothingWraps(pool, core);
      assert InBlock(pool, core, cur.nextOnCore[core]);
      InBlockIsOnCore(pool, core, Pick(pool, cur, policy, core, draw).index);
    }
  }

  predicate PossibleRun(pool: Pool, run: seq<Event>) {
    forall k :: 0 <= k < |run| ==> Possible(pool, run[k])
  }

  function HandleAll(pool: Pool, cur: Cursors, run: seq<Event>): (cur': Cursors)
    requires Shaped(cur) && PossibleRun(pool, run)
    ensures Shaped(cur')
    decreases |run|
  {
    if run == [] then cur
    else
      assert Possible(pool, run[0]);
      HandleAll(pool, Handle(pool, cur, run[0]), run[1..])
  }

  lemma {:induction false} AimedRun(pool: Pool, cur: Cursors, run: seq<Event>)
    requires Running(pool) && Aimed(pool, cur) && PossibleRun(pool, run)
    ensures Aimed(pool, HandleAll(pool, cur, run))
    decreases |run|
  {
    if run != [] {
      assert Possible(pool, run[0]);
      AimedStep(pool, cur, run[0]);
      AimedRun(pool, Handle(pool, cur, run[0]), run[1..]);
    }
  }

  // Routing safety. After any run of jobs and timer scans, every policy serves every core.
  lemma RoutingIsSafe(pool: Pool, run: seq<Event>, policy: Policy, core: nat, draw: nat)
    requires Running(pool) && PossibleRun(pool, run) && core < pool.cores
    ensures core < MAX_WORKER_COUNT
    ensures Served(pool, policy, core, Pick(pool, HandleAll(pool, Initial(pool), run), policy, core, draw))
  {
    RunningCores(pool);
    AimedInitially(pool);
    AimedRun(pool, Initial(pool), run);
    AimedPicksServe(pool, HandleAll(pool, Initial(pool), run), policy, core, draw);
  }

  // Where everything begins: each core's first picks are its first worker, the pool's are worker 0.
  lemma FirstPicks(pool: Pool, core: nat, draw: nat)
    requires Running(pool) && core < pool.cores
    ensures core < MAX_WORKER_COUNT
    ensures Pick(pool, Initial(pool), SameCoreRoundRobin, core, draw) == Worker(core * pool.perCore)
    ensures Pick(pool, Initial(pool), SameCoreLeastJobs, core, draw) == Worker(core * pool.perCore)
    ensures Pick(pool, Initial(pool), RoundRobin, core, draw) == Worker(0)
    ensures Pick(pool, Initial(pool), LeastJobs, core, draw) == Worker(0)
  {
    RunningCores(pool);
    NothingWraps(pool, core);
  }

  lemma RoundsDropOut(k: nat, round: nat, width: nat)
    requires k < width
    ensures (width * round + k) % width == k
  {
    BlockMember(round, k, width);
    assert width * round == round * width;
  }

  // A random pick depends on the draw modulo the number of workers to choose from, and each of them is the pick of
  // the draw that is its own number among them; so none is left out.
  lemma RandomReachesAll(pool: Pool, cur: Cursors, core: nat, k: nat, round: nat)
    requires Running(pool) && Shaped(cur) && core < pool.cores
    ensures core < MAX_WORKER_COUNT
    ensures k < pool.Workers() ==> Pick(pool, cur, Random, core, pool.Workers() * round + k) == Worker(k)
    ensures k < pool.perCore ==>
              Pick(pool, cur, SameCoreRandom, core, pool.perCore * round + k) == Worker(core * pool.perCore + k)
  {
    hide Wrap;
    RunningCores(pool);
    if k < pool.Workers() {
      RoundsDropOut(k, round, pool.Workers());
    }
    if k < pool.perCore {
      NothingWraps(pool, core);
      RoundsDropOut(k, round, pool.perCore);
      InRangeWrapsToItself(core * pool.perCore + k);
    }
  }

  // The random policies fail exactly when they have nothing to draw from, and no other policy fails.
  lemma FailsIffNothingToDraw(pool: Pool, cur: Cursors, policy: Policy, core: nat, draw: nat)
    requires Shaped(cur) && core < MAX_WORKER_COUNT
    ensures Pick(pool, cur, policy, core, draw) == DividesByZero
      <==> (policy.Random? && pool.WorkerCount() == 0) || (policy.SameCoreRandom? && pool.perCore == 0)
  {
  }

  // After every run every policy serves every core.
  ghost predicate AlwaysServes(pool: Pool) {
    forall run, policy, core: nat, draw: nat ::
      PossibleRun(pool, run) && core < pool.cores && core < MAX_WORKER_COUNT ==>
        Served(pool, policy, core, Pick(pool, HandleAll(pool, Initial(pool), run), policy, core, draw))
  }

  // If the worker count has wrapped, some core's first draw lands just behind the workers that are counted.
  lemma WrappedPick(pool: Pool) returns (core: nat, draw: nat)
    requires 1 <= pool.perCore && pool.WorkerCount() <= MAX_WORKER_COUNT < pool.Workers()
    ensures core < pool.cores && core < MAX_WORKER_COUNT
    ensures Pick(pool, Initial(pool), SameCoreRandom, core, draw) == Worker(pool.WorkerCount())
  {
    var w := pool.WorkerCount();
    WrappedMeansMany(pool);
    BlockExists(w, pool.cores, pool.perCore);
    core, draw := BlockOf(w, pool.perCore), w - BlockOf(w, pool.perCore) * pool.perCore;
    MulMonotone(2, pool.perCore, core);
    BlockMember(0, draw, pool.perCore);
    assert core * pool.perCore + draw % pool.perCore == w;
  }

  lemma WrappedMeansMany(pool: Pool)
    requires pool.WorkerCount() < pool.Workers()
    ensures pool.perCore >= 2
  {
  }

  // The configuration check: how many workers and queues the pool will have.
  datatype QueueType = Exclusive | Shared

  datatype Checked = Rejected | BadFactor | Accepted(workers: Word, queues: Word)

  // `factor` workers are to share each queue. The sum wraps before the division.
  function QueueCount(queueType: QueueType, workers: Word, factor: Word): Word
    requires queueType.Shared? ==> factor >= 1
  {
    match queueType
    case Exclusive => workers
    case Shared =>
      QuotientFits(Wrap(workers + factor - 1), factor);
      Wrap(workers + factor - 1) / factor
  }

  lemma QuotientFits(x: nat, d: nat)
    requires 1 <= d
    ensures x / d <= x
  {
    if x / d > x {
      MulMonotone(1, d, x / d);
    }
  }

  function CheckConfig(pool: Pool, mayUsePolicy: bool, queueType: QueueType, factor: Word): Checked {
    if pool.WorkerCount() > MAX_WORKER_COUNT || !mayUsePolicy then Rejected
    else if queueType.Shared? && factor == 0 then BadFactor
    else Accepted(pool.WorkerCount(), QueueCount(queueType, pool.WorkerCount(), factor))
  }

  // An accepted configuration routes every job to a worker, in every run, precisely when it asks for workers at all
  // and the true product fits. The check looks at neither: it has no lower bound, and its product has wrapped.
  lemma AcceptedIsSafeIff(pool: Pool, mayUsePolicy: bool, queueType: QueueType, factor: Word)
    requires 1 <= pool.cores && CheckConfig(pool, mayUsePolicy, queueType, factor).Accepted?
    ensures AlwaysServes(pool) <==> 1 <= pool.perCore && pool.cores * pool.perCore <= 128
  {
    assert HandleAll(pool, Initial(pool), []) == Initial(pool) && PossibleRun(pool, []);
    if Running(pool) {
      forall run, policy, core: nat, draw: nat | PossibleRun(pool, run) && core < pool.cores && core < MAX_WORKER_COUNT
        ensures Served(pool, policy, core, Pick(pool, HandleAll(pool, Initial(pool), run), policy, core, draw))
      {
        RoutingIsSafe(pool, run, policy, core, draw);
      }
    } else if pool.perCore == 0 {
      assert !Served(pool, RoundRobin, 0, Pick(pool, HandleAll(pool, Initial(pool), []), RoundRobin, 0, 0));
    } else {
      var core, draw := WrappedPick(pool);
      assert !Served(pool, SameCoreRandom, core,
                     Pick(pool, HandleAll(pool, Initial(pool), []), SameCoreRandom, core, draw));
    }
  }

  // Configurations the check accepts because the product wraps: one with no worker, one with four.
  lemma WrappedIsAccepted()
    ensures CheckConfig(Pool(2, 0x8000_0000), true, Exclusive, 1) == Accepted(0, 0)
    ensures Pick(Pool(2, 0x8000_0000), Initial(Pool(2, 0x8000_0000)), RoundRobin, 0, 0) == Worker(0)
    ensures CheckConfig(Pool(4, 0x4000_0001), true, Exclusive, 1) == Accepted(4, 4)
    ensures Pick(Pool(4, 0x4000_0001), Initial(Pool(4, 0x4000_0001)), SameCoreRoundRobin, 1, 0) == Worker(0x4000_0001)
  {
  }

  // How dealing the queues ends: `factor` workers a queue, in order, until the queues are dealt or the loop asks for
  // a worker that does not exist.
  datatype Dealing = EveryoneServed | OutOfWorkers | SomeLeftOut

  function DealingOf(workers: nat, queues: nat, factor: nat): Dealing {
    if queues * factor == workers then EveryoneServed
    else if queues * factor > workers then OutOfWorkers
    else SomeLeftOut
  }

  lemma RoundedUp(w: nat, f: nat)
    requires 1 <= f
    ensures w <= (w + f - 1) / f * f
    ensures (w + f - 1) / f * f == w <==> w % f == 0
  {
    var q := (w + f - 1) / f;
    assert w + f - 1 == f * q + (w + f - 1) % f;
    assert q * f == f * q;
    var p, r := w / f, w % f;
    assert w == f * p + r;
    if r == 0 {
      BlockMember(p, f - 1, f);
      assert p * f + (f - 1) == w + f - 1;
    } else if q * f == w {
      BlockMember(q, 0, f);
    }
  }

  lemma ExclusiveDealing(workers: Word, factor: Word)
    requires 1 <= workers <= MAX_WORKER_COUNT
    ensures DealingOf(workers, QueueCount(Exclusive, workers, factor), factor)
         == if factor == 1 then EveryoneServed else if factor == 0 then SomeLeftOut else OutOfWorkers
  {
    if factor >= 2 {
      MulMonotone(2, factor, workers);
    }
  }

  lemma SharedDealing(workers: Word, factor: Word)
    requires workers <= MAX_WORKER_COUNT && 1 <= factor
    ensures DealingOf(workers, QueueCount(Shared, workers, factor), factor)
         == if workers % factor == 0 then EveryoneServed
            else if workers + factor > UINT_RANGE then SomeLeftOut else OutOfWorkers
  {
    if workers + factor > UINT_RANGE {
      BlockMember(0, workers, factor);
      WrappedQueues(workers, factor);
    } else {
      RoundedUp(workers, factor);
    }
  }

  // Unless the sum wraps, there are just enough queues: one fewer would leave workers out.
  lemma JustEnoughQueues(workers: Word, factor: Word)
    requires 1 <= factor && workers + factor <= UINT_RANGE
    ensures
      var queues := QueueCount(Shared, workers, factor);
      workers <= queues * factor && (queues > 0 ==> (queues - 1) * factor < workers)
  {
    var sum := workers + factor - 1;
    var q, rest := sum / factor, sum % factor;
    assert sum == factor * q + rest;
    assert factor * q == q * factor && (q - 1) * factor == q * factor - factor;
  }

  // A sum that wraps comes to less than the factor.
  lemma WrappedQueues(workers: Word, factor: Word)
    requires workers <= MAX_WORKER_COUNT && workers + factor > UINT_RANGE
    ensures QueueCount(Shared, workers, factor) == 0
  {
    assert Wrap(workers + factor - 1) == workers + factor - 1 - UINT_RANGE;
    BlockMember(0, workers + factor - 1 - UINT_RANGE, factor);
  }

  lemma NoWorkersDealing(factor: Word)
    ensures DealingOf(0, QueueCount(Exclusive, 0, factor), factor) == EveryoneServed
  {
  }

  // The three outcomes exactly. With exclusive queues everyone is served for a factor of 1 only: larger factors run
  // out of workers, and 0 leaves all without a queue. With shared queues everyone is served if and only if the
  // factor divides the workers; others run out, except factors so large that the sum wraps, which leave everyone
  // without a queue.
  lemma DealingIff(queueType: QueueType, workers: Word, factor: Word)
    requires workers <= MAX_WORKER_COUNT && (queueType.Shared? ==> 1 <= factor)
    ensures
      var dealing := DealingOf(workers, QueueCount(queueType, workers, factor), factor);
      && (dealing.EveryoneServed? <==>
          workers == 0 || if queueType.Shared? then workers % factor == 0 else factor == 1)
      && (dealing.SomeLeftOut? <==>
          workers > 0 && if queueType.Shared? then workers + factor > UINT_RANGE else factor == 0)
  {
    hide QueueCount, DealingOf;
    if queueType.Shared? {
      SharedDealing(workers, factor);
      if workers < factor {
        BlockMember(0, workers, factor);
      }
    } else if workers > 0 {
      ExclusiveDealing(workers, factor);
    } else {
      NoWorkersDealing(factor);
    }
  }

  // If anyone is left without a queue, all are.
  lemma LeftOutMeansAll(queueType: QueueType, workers: Word, factor: Word)
    requires workers <= MAX_WORKER_COUNT && (queueType.Shared? ==> 1 <= factor)
    requires DealingOf(workers, QueueCount(queueType, workers, factor), factor).SomeLeftOut?
    ensures QueueCount(queueType, workers, factor) * factor == 0
  {
    hide DealingOf;
    DealingIff(queueType, workers, factor);
    if queueType.Shared? {
      WrappedQueues(workers, factor);
    }
  }

  // The queues of the first n workers.
  function Dealt(n: nat, factor: nat): (queues: seq<nat>)
    requires 1 <= factor
    ensures |queues| == n && forall k :: 0 <= k < n ==> queues[k] == BlockOf(k, factor)
  {
    seq(n, k requires 0 <= k < n => DealtTo(k, factor))
  }

  function DealtTo(k: nat, factor: nat): (queue: nat)
    requires 1 <= factor
    ensures queue == BlockOf(k, factor)
  {
    k / factor
  }

  lemma {:induction false} QueueShare(n: nat, factor: nat, queue: nat)
    requires 1 <= factor
    ensures multiset(Dealt(n, factor))[queue] ==
            if n <= queue * factor then 0 else if n <= queue * factor + factor then n - queue * factor else factor
    decreases n
  {
    if n > 0 {
      QueueShare(n - 1, factor, queue);
      assert Dealt(n, factor) == Dealt(n - 1, factor) + [DealtTo(n - 1, factor)];
      BlockIff(queue, n - 1, factor);
    }
  }

  lemma BlockIff(block: nat, id: nat, width: nat)
    requires 1 <= width
    ensures BlockOf(id, width) == block <==> block * width <= id < block * width + width
  {
    assert id == BlockOf(id, width) * width + id % width;
    if block * width <= id < block * width + width {
      BlockMember(block, id - block * width, width);
    }
  }

  // When everyone is served, every worker has one of the queues and every queue exactly `factor` workers.
  lemma EachQueueServes(workers: nat, queues: nat, factor: nat, queue: nat)
    requires DealingOf(workers, queues, factor).EveryoneServed? && 1 <= factor
    ensures multiset(Dealt(workers, factor))[queue] == if queue < queues then factor else 0
    ensures forall k :: 0 <= k < workers ==> 0 <= BlockOf(k, factor) < queues
  {
    QueueShare(workers, factor, queue);
    if queue < queues {
      BlockFits(queue, queues, factor);
    } else {
      MulMonotone(queues, queue, factor);
    }
    forall k | 0 <= k < workers
      ensures 0 <= BlockOf(k, factor) < queues
    {
      BlockExists(k, queues, factor);
    }
  }

  // How far starting the pool gets. Creating workers fails when there are more than fit the array.
  datatype StartUp = Refused | DividesByFactor | TooManyWorkers | Started(dealing: Dealing)

  function StartUpOf(pool: Pool, mayUsePolicy: bool, queueType: QueueType, factor: Word): StartUp {
    match CheckConfig(pool, mayUsePolicy, queueType, factor)
    case Rejected => Refused
    case BadFactor => DividesByFactor
    case Accepted(workers, queues) =>
      if pool.Workers() > MAX_WORKER_COUNT then TooManyWorkers else Started(DealingOf(workers, queues, factor))
  }

  // What stops a start, exactly; a pool that is not stopped starts.
  lemma StartFailsIff(pool: Pool, mayUsePolicy: bool, queueType: QueueType, factor: Word)
    ensures
      var start := StartUpOf(pool, mayUsePolicy, queueType, factor);
      var counted := mayUsePolicy && pool.Workers() % 0x1_0000_0000 <= 128;
      && (start == Refused <==> !counted)
      && (start == DividesByFactor <==> counted && queueType.Shared? && factor == 0)
      && (start == TooManyWorkers <==>
          counted && (queueType.Shared? ==> factor > 0) && pool.Workers() > 128)
      && (start.Started? <==>
          mayUsePolicy && (queueType.Shared? ==> factor > 0) && pool.Workers() <= 128)
  {
    hide QueueCount;
  }

  // A pool starts with a queue for every worker it asks for precisely under this condition.
  lemma StartsWellIff(pool: Pool, mayUsePolicy: bool, queueType: QueueType, factor: Word)
    ensures StartUpOf(pool, mayUsePolicy, queueType, factor) == Started(EveryoneServed)
      <==> && mayUsePolicy && pool.Workers() <= MAX_WORKER_COUNT && (queueType.Shared? ==> factor >= 1)
           && (pool.Workers() == 0 || if queueType.Shared? then pool.Workers() % factor == 0 else factor == 1)
  {
    hide QueueCount, DealingOf;
    if pool.Workers() <= MAX_WORKER_COUNT && (queueType.Shared? ==> factor >= 1) {
      DealingIff(queueType, pool.WorkerCount(), factor);
    }
  }

  lemma BlocksInOrder(pool: Pool, c: nat, d: nat, i: nat, j: nat)
    requires c < d && InBlock(pool, c, i) && InBlock(pool, d, j)
    ensures i < j
  {
    NextBlock(c, pool.perCore);
    MulMonotone(c + 1, d, pool.perCore);
  }

  // On one snapshot the first minimum of the whole pool is the first minimum among the cores' first minima.
  lemma PoolMinIsACoreMin(pool: Pool, jobs: seq<nat>)
    requires Running(pool) && |jobs| == pool.Workers()
    ensures
      var core := BlockOf(PoolMin(pool, jobs), pool.perCore);
      && 0 <= core < pool.cores
      && PoolMin(pool, jobs) == CoreMin(pool, jobs, core)
      && (forall c :: 0 <= c < pool.cores ==> jobs[PoolMin(pool, jobs)] <= jobs[CoreMin(pool, jobs, c)])
      && (forall c :: 0 <= c < core ==> jobs[PoolMin(pool, jobs)] < jobs[CoreMin(pool, jobs, c)])
  {
    var k := PoolMin(pool, jobs);
    var core := BlockOf(k, pool.perCore);
    BlockExists(k, pool.cores, pool.perCore);
    assert InBlock(pool, core, k);
    var m := CoreMin(pool, jobs, core);
    assert jobs[k] <= jobs[m] && jobs[m] <= jobs[k];
    forall c | 0 <= c < core
      ensures jobs[k] < jobs[CoreMin(pool, jobs, c)]
    {
      BlocksInOrder(pool, c, core, CoreMin(pool, jobs, c), k);
    }
  }

  // One round of the timer: it scans the pool, then each core. The counts may have changed in between.
  function TimerRound(pool: Pool, poolCounts: seq<nat>, coreCounts: seq<nat>): (round: seq<Event>)
    requires Running(pool) && |poolCounts| == |coreCounts| == pool.Workers()
    ensures PossibleRun(pool, round)
  {
    [ScanPool(poolCounts)] + CoreScans(pool, coreCounts, 0)
  }

  function CoreScans(pool: Pool, counts: seq<nat>, core: nat): (scans: seq<Event>)
    requires Running(pool) && |counts| == pool.Workers() && core <= pool.cores
    ensures PossibleRun(pool, scans)
    decreases pool.cores - core
  {
    if core == pool.cores then [] else [ScanCore(core, counts)] + CoreScans(pool, counts, core + 1)
  }

  // What the scans from the given core on leave behind.
  lemma {:induction false} CoreScansEffect(pool: Pool, cur: Cursors, counts: seq<nat>, core: nat)
    requires Running(pool) && Shaped(cur) && |counts| == pool.Workers() && core <= pool.cores
    ensures
      var after := HandleAll(pool, cur, CoreScans(pool, counts, core));
      && after == cur.(leastOnCore := after.leastOnCore) && |after.leastOnCore| == MAX_WORKER_COUNT
      && (forall c :: 0 <= c < MAX_WORKER_COUNT ==>
            after.leastOnCore[c] == if core <= c < pool.cores then CoreMin(pool, counts, c) else cur.leastOnCore[c])
    decreases pool.cores - core
  {
    hide CoreMin;
    if core < pool.cores {
      RunningCores(pool);
      var scan, rest := ScanCore(core, counts), CoreScans(pool, counts, core + 1);
      assert ([scan] + rest)[1..] == rest;
      CoreScansEffect(pool, Handle(pool, cur, scan), counts, core + 1);
    }
  }

  // A round sets the pool's and every core's least-loaded worker, each from the counts its own scan read.
  lemma TimerRoundEffect(pool: Pool, cur: Cursors, poolCounts: seq<nat>, coreCounts: seq<nat>)
    requires Running(pool) && Shaped(cur) && |poolCounts| == |coreCounts| == pool.Workers()
    ensures
      var after := HandleAll(pool, cur, TimerRound(pool, poolCounts, coreCounts));
      && after == cur.(leastGlobal := PoolMin(pool, poolCounts), leastOnCore := after.leastOnCore)
      && |after.leastOnCore| == MAX_WORKER_COUNT
      && (forall c :: 0 <= c < MAX_WORKER_COUNT ==>
            after.leastOnCore[c] == if c < pool.cores then CoreMin(pool, coreCounts, c) else cur.leastOnCore[c])
  {
    hide CoreMin, PoolMin;
    var scan, rest := ScanPool(poolCounts), CoreScans(pool, coreCounts, 0);
    assert ([scan] + rest)[1..] == rest;
    CoreScansEffect(pool, Handle(pool, cur, scan), coreCounts, 0);
  }
}
