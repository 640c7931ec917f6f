/**
 Whole runs of the router: round robin is fair in every window of its own picks, however jobs of other
 policies, other cores and timer scans come in between, and least-loaded picks follow the latest scan.
 */
module Fairness {
  import opened Arithmetic
  import opened Blocks
  import opened Router

  // The next n workers of a cursor that turns over within low..high.
  function Rotation(cursor: nat, low: nat, high: nat, n: nat): seq<Choice>
    decreases n
  {
    if n == 0 then [] else [Worker(cursor)] + Rotation(Turn(cursor, low, high), low, high, n - 1)
  }

  function TurnTimes(cursor: nat, low: nat, high: nat, n: nat): nat
    decreases n
  {
    if n == 0 then cursor else TurnTimes(Turn(cursor, low, high), low, high, n - 1)
  }

  // How many turns until the cursor stands on v.
  function Distance(cursor: nat, low: nat, high: nat, v: nat): nat
    requires low <= cursor < high && low <= v < high
  {
    if cursor <= v then v - cursor else v - cursor + (high - low)
  }

  lemma DistanceNext(cursor: nat, low: nat, high: nat, v: nat)
    requires low <= cursor < high < UINT_RANGE && low <= v < high
    ensures low <= Turn(cursor, low, high) < high
    ensures Distance(cursor, low, high, v) < high - low
    ensures Distance(cursor, low, high, v) == 0 <==> cursor == v
    ensures Distance(Turn(cursor, low, high), low, high, v) ==
            if cursor == v then high - low - 1 else Distance(cursor, low, high, v) - 1
  {
  }

  lemma NextMultiple(x: nat, width: nat)
    requires 1 <= width
    ensures (x + width) / width == x / width + 1
  {
    BlockMember(x / width + 1, x % width, width);
    assert x + width == (x / width + 1) * width + x % width;
  }

  // How often a cursor that is `distance` turns away from a value meets it in n turns.
  function Meetings(n: nat, width: nat, distance: nat): nat
    requires distance < width
  {
    (n + width - 1 - distance) / width
  }

  lemma MeetingsNext(n: nat, width: nat, distance: nat)
    requires 1 <= n && distance < width
    ensures Meetings(n, width, distance) ==
            if distance == 0 then 1 + Meetings(n - 1, width, width - 1) else Meetings(n - 1, width, distance - 1)
  {
    if distance == 0 {
      NextMultiple(n - 1, width);
    }
  }

  lemma NoMeetings(width: nat, distance: nat)
    requires distance < width
    ensures Meetings(0, width, distance) == 0
  {
    BlockMember(0, width - 1 - distance, width);
  }

  lemma NothingServed(cursor: nat, low: nat, high: nat, v: nat)
    ensures multiset(Rotation(cursor, low, high, 0))[Worker(v)] == 0
  {
  }

  lemma RotationUnfolds(cursor: nat, low: nat, high: nat, n: nat, v: nat)
    requires n >= 1
    ensures
      multiset(Rotation(cursor, low, high, n))[Worker(v)] ==
      (if cursor == v then 1 else 0) + multiset(Rotation(Turn(cursor, low, high), low, high, n - 1))[Worker(v)]
  {
    var rest := Rotation(Turn(cursor, low, high), low, high, n - 1);
    assert multiset([Worker(cursor)] + rest) == multiset{Worker(cursor)} + multiset(rest);
  }

  // How often v comes up in the next n values, exactly.
  lemma {:induction false} TimesServed(cursor: nat, low: nat, high: nat, n: nat, v: nat)
    requires low <= cursor < high < UINT_RANGE && low <= v < high
    ensures multiset(Rotation(cursor, low, high, n))[Worker(v)]
         == Meetings(n, high - low, Distance(cursor, low, high, v))
    decreases n
  {
    hide Meetings, Distance, Rotation, Turn;
    var w := high - low;
    DistanceNext(cursor, low, high, v);
    if n == 0 {
      NoMeetings(w, Distance(cursor, low, high, v));
      NothingServed(cursor, low, high, v);
    } else {
      var next := Turn(cursor, low, high);
      TimesServed(next, low, high, n - 1, v);
      MeetingsNext(n, w, Distance(cursor, low, high, v));
      RotationUnfolds(cursor, low, high, n, v);
    }
  }

  lemma MeetingsBounds(n: nat, width: nat, distance: nat)
    requires distance < width
    ensures n / width <= Meetings(n, width, distance) <= (n + width - 1) / width
  {
    DivMonotone(n, n + width - 1 - distance, width);
    DivMonotone(n + width - 1 - distance, n + width - 1, width);
  }

  lemma {:induction false} RotationWindow(cursor: nat, low: nat, high: nat, n: nat, i: nat, j: nat)
    requires low <= cursor < high < UINT_RANGE && i <= j <= n
    ensures |Rotation(cursor, low, high, n)| == n
    ensures low <= TurnTimes(cursor, low, high, i) < high
    ensures Rotation(cursor, low, high, n)[i..j] == Rotation(TurnTimes(cursor, low, high, i), low, high, j - i)
    decreases n
  {
    if n > 0 {
      var next := Turn(cursor, low, high);
      var rest := Rotation(next, low, high, n - 1);
      if i > 0 {
        RotationWindow(next, low, high, n - 1, i - 1, j - 1);
        assert ([Worker(cursor)] + rest)[i..j] == rest[i - 1..j - 1];
      } else if j > 0 {
        RotationWindow(next, low, high, n - 1, 0, j - 1);
        assert ([Worker(cursor)] + rest)[0..j] == [Worker(cursor)] + rest[0..j - 1];
      } else {
        RotationWindow(next, low, high, n - 1, 0, 0);
      }
    }
  }

  // In any window of a rotation, every value comes up floor(window / width) or ceiling times.
  lemma RotationIsFair(cursor: nat, low: nat, high: nat, n: nat, i: nat, j: nat, v: nat)
    requires low <= cursor < high < UINT_RANGE && low <= v < high && i <= j <= n
    ensures |Rotation(cursor, low, high, n)| == n
    ensures (j - i) / (high - low)
         <= multiset(Rotation(cursor, low, high, n)[i..j])[Worker(v)]
         <= (j - i + (high - low) - 1) / (high - low)
  {
    hide Rotation, Meetings;
    RotationWindow(cursor, low, high, n, i, j);
    var from := TurnTimes(cursor, low, high, i);
    TimesServed(from, low, high, j - i, v);
    MeetingsBounds(j - i, high - low, Distance(from, low, high, v));
  }

  lemma TurnKeepsPlace(cursor: nat, low: nat, high: nat, k: nat)
    requires low <= cursor < high < UINT_RANGE && 1 <= k
    ensures low <= Turn(cursor, low, high) < high
    ensures (Turn(cursor, low, high) - low + (k - 1)) % (high - low) == (cursor - low + k) % (high - low)
  {
    if cursor + 1 == high {
      ModOnce(k - 1, high - low);
      assert cursor - low + k == (k - 1) + (high - low);
    }
  }

  // The k-th worker of a rotation that begins with the first of its range.
  lemma {:induction false} RotationAt(cursor: nat, low: nat, high: nat, n: nat, k: nat)
    requires low <= cursor < high < UINT_RANGE && k < n
    ensures k < |Rotation(cursor, low, high, n)|
    ensures Rotation(cursor, low, high, n)[k] == Worker(low + (cursor - low + k) % (high - low))
    decreases n
  {
    hide Turn;
    if k == 0 {
      BlockMember(0, cursor - low, high - low);
    } else {
      TurnKeepsPlace(cursor, low, high, k);
      RotationAt(Turn(cursor, low, high), low, high, n - 1, k - 1);
    }
  }

  // Which jobs a policy's cursor serves: those of the policy, for a same-core policy on one core.
  predicate Asks(e: Event, policy: Policy, core: nat) {
    e.AddJob? && e.policy == policy && (policy.SameCore() ==> e.core == core)
  }

  // What the router answered to those jobs during a run.
  function Answers(pool: Pool, cur: Cursors, run: seq<Event>, policy: Policy, core: nat): seq<Choice>
    requires Shaped(cur) && PossibleRun(pool, run)
    decreases |run|
  {
    if run == [] then []
    else
      assert Possible(pool, run[0]);
      var e := run[0];
      (if Asks(e, policy, core) then [Pick(pool, cur, e.policy, e.core, e.draw)] else [])
      + Answers(pool, Handle(pool, cur, e), run[1..], policy, core)
  }

  lemma {:induction false} CoreAnswersRotate(pool: Pool, cur: Cursors, run: seq<Event>, core: nat)
    requires Shaped(cur) && PossibleRun(pool, run) && core < MAX_WORKER_COUNT
    ensures
      var answers := Answers(pool, cur, run, SameCoreRoundRobin, core);
      answers == Rotation(cur.nextOnCore[core], FirstOf(pool, core), FirstOf(pool, core + 1), |answers|)
    decreases |run|
  {
    if run != [] {
      assert Possible(pool, run[0]);
      var next := Handle(pool, cur, run[0]);
      CoreAnswersRotate(pool, next, run[1..], core);
      var rest := Answers(pool, next, run[1..], SameCoreRoundRobin, core);
      assert [] + rest == rest;
    }
  }

  lemma {:induction false} PoolAnswersRotate(pool: Pool, cur: Cursors, run: seq<Event>, core: nat)
    requires Shaped(cur) && PossibleRun(pool, run)
    ensures
      var answers := Answers(pool, cur, run, RoundRobin, core);
      answers == Rotation(cur.nextGlobal, 0, pool.WorkerCount(), |answers|)
    decreases |run|
  {
    if run != [] {
      assert Possible(pool, run[0]);
      var next := Handle(pool, cur, run[0]);
      PoolAnswersRotate(pool, next, run[1..], core);
      var rest := Answers(pool, next, run[1..], RoundRobin, core);
      assert [] + rest == rest;
    }
  }

  // Same-core round robin, exactly: over any run of the pool, the k-th job it places on a core goes to that core's
  // worker number k modulo the workers per core.
  lemma CoreRoundRobinInTurn(pool: Pool, run: seq<Event>, core: nat, k: nat)
    requires Running(pool) && PossibleRun(pool, run) && core < pool.cores
    requires k < |Answers(pool, Initial(pool), run, SameCoreRoundRobin, core)|
    ensures Answers(pool, Initial(pool), run, SameCoreRoundRobin, core)[k]
         == Worker(core * pool.perCore + k % pool.perCore)
  {
    hide FirstOf, Rotation, Answers;
    RunningCores(pool);
    NextBlock(core, pool.perCore);
    NothingWraps(pool, core);
    NothingWraps(pool, core + 1);
    CoreAnswersRotate(pool, Initial(pool), run, core);
    RotationAt(core * pool.perCore, core * pool.perCore, (core + 1) * pool.perCore,
               |Answers(pool, Initial(pool), run, SameCoreRoundRobin, core)|, k);
  }

  // Round robin over the pool, exactly: its k-th job goes to worker k modulo the number of workers.
  lemma PoolRoundRobinInTurn(pool: Pool, run: seq<Event>, k: nat)
    requires Running(pool) && PossibleRun(pool, run)
    requires k < |Answers(pool, Initial(pool), run, RoundRobin, 0)|
    ensures pool.Workers() > 0
    ensures Answers(pool, Initial(pool), run, RoundRobin, 0)[k] == Worker(k % pool.Workers())
  {
    hide FirstOf, Rotation, Answers;
    RunningCores(pool);
    PoolAnswersRotate(pool, Initial(pool), run, 0);
    RotationAt(0, 0, pool.Workers(), |Answers(pool, Initial(pool), run, RoundRobin, 0)|, k);
  }

  // Fairness of same-core round robin: in any window of its answers on a core, over any run of the pool, each
  // worker of that core gets floor(window / perCore) or ceiling of the jobs.
  lemma CoreRoundRobinIsFair(pool: Pool, run: seq<Event>, core: nat, i: nat, j: nat, worker: nat)
    requires Running(pool) && PossibleRun(pool, run) && core < pool.cores && InBlock(pool, core, worker)
    requires i <= j <= |Answers(pool, Initial(pool), run, SameCoreRoundRobin, core)|
    ensures (j - i) / pool.perCore
         <= multiset(Answers(pool, Initial(pool), run, SameCoreRoundRobin, core)[i..j])[Worker(worker)]
         <= (j - i + pool.perCore - 1) / pool.perCore
  {
    hide FirstOf, Rotation, Answers;
    RunningCores(pool);
    NextBlock(core, pool.perCore);
    NothingWraps(pool, core);
    NothingWraps(pool, core + 1);
    CoreAnswersRotate(pool, Initial(pool), run, core);
    RotationIsFair(core * pool.perCore, core * pool.perCore, (core + 1) * pool.perCore,
                   |Answers(pool, Initial(pool), run, SameCoreRoundRobin, core)|, i, j, worker);
  }

  // The same for round robin over the whole pool.
  lemma PoolRoundRobinIsFair(pool: Pool, run: seq<Event>, i: nat, j: nat, worker: nat)
    requires Running(pool) && PossibleRun(pool, run) && worker < pool.Workers()
    requires i <= j <= |Answers(pool, Initial(pool), run, RoundRobin, 0)|
    ensures pool.Workers() > 0
    ensures (j - i) / pool.Workers()
         <= multiset(Answers(pool, Initial(pool), run, RoundRobin, 0)[i..j])[Worker(worker)]
         <= (j - i + pool.Workers() - 1) / pool.Workers()
  {
    hide FirstOf, Rotation, Answers;
    RunningCores(pool);
    PoolAnswersRotate(pool, Initial(pool), run, 0);
    RotationIsFair(0, 0, pool.Workers(), |Answers(pool, Initial(pool), run, RoundRobin, 0)|, i, j, worker);
  }

  predicate NoPoolScan(run: seq<Event>) {
    forall k :: 0 <= k < |run| ==> !run[k].ScanPool?
  }

  predicate NoScanOf(core: nat, run: seq<Event>) {
    forall k :: 0 <= k < |run| && run[k].ScanCore? ==> run[k].core != core
  }

  lemma {:induction false} LeastKept(pool: Pool, cur: Cursors, run: seq<Event>, core: nat)
    requires Shaped(cur) && PossibleRun(pool, run) && core < MAX_WORKER_COUNT
    ensures NoPoolScan(run) ==> HandleAll(pool, cur, run).leastGlobal == cur.leastGlobal
    ensures NoScanOf(core, run) ==> HandleAll(pool, cur, run).leastOnCore[core] == cur.leastOnCore[core]
    decreases |run|
  {
    if run != [] {
      assert Possible(pool, run[0]);
      LeastKept(pool, Handle(pool, cur, run[0]), run[1..], core);
    }
  }

  // From one scan of the pool to the next, whatever jobs arrive and cores are scanned, least-loaded picks go to the
  // lowest-numbered worker with the fewest jobs in the counts that scan read.
  lemma LeastJobsFollowsLastScan(pool: Pool, cur: Cursors, jobs: seq<nat>, run: seq<Event>, core: nat, draw: nat)
    requires Running(pool) && Shaped(cur) && |jobs| == pool.Workers() && PossibleRun(pool, run) && NoPoolScan(run)
    requires core < MAX_WORKER_COUNT
    ensures Pick(pool, HandleAll(pool, Handle(pool, cur, ScanPool(jobs)), run), LeastJobs, core, draw)
         == Worker(PoolMin(pool, jobs))
  {
    LeastKept(pool, Handle(pool, cur, ScanPool(jobs)), run, core);
  }

  // Likewise on each core, among that core's workers.
  lemma SameCoreLeastJobsFollowsLastScan(
    pool: Pool, cur: Cursors, jobs: seq<nat>, run: seq<Event>, core: nat, draw: nat)
    requires Running(pool) && Shaped(cur) && |jobs| == pool.Workers() && PossibleRun(pool, run) && NoScanOf(core, run)
    requires core < pool.cores
    ensures core < MAX_WORKER_COUNT
    ensures Pick(pool, HandleAll(pool, Handle(pool, cur, ScanCore(core, jobs)), run), SameCoreLeastJobs, core, draw)
         == Worker(CoreMin(pool, jobs, core))
  {
    RunningCores(pool);
    LeastKept(pool, Handle(pool, cur, ScanCore(core, jobs)), run, core);
  }
}
