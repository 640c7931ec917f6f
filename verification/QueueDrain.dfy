/** Progress: the queue never blocks for good, and once pushing stops it drains in a known number of steps. */
module QueueDrain {
  import opened Items
  import opened QueueProtocol
  import opened QueueCounts

  // The steps left once no push starts any more: what each producer has to do, and for every item that is
  // not yet claimed the four steps of the pop that will take it.
  function StepsLeft(s: State): int {
    ProducerSteps(s.producers) + 4 * s.mem.popSem + ConsumerSteps(s.consumers)
  }

  function ProducerSteps(ps: seq<Producer>): int {
    7 * NP(ps, AtPToken) + 6 * NP(ps, AtPReserved) + 5 * NP(ps, AtPWritten)
  }

  function ConsumerSteps(cs: seq<Consumer>): int {
    3 * NC(cs, AtCToken) + 2 * NC(cs, AtCClaimed) + NC(cs, AtCRead)
  }

  function ProducerWeight(p: Producer): int {
    match p
    case PIdle => 0
    case PToken(_) => 7
    case PReserved(_, _, _) => 6
    case PWritten(_, _, _) => 5
  }

  function ConsumerWeight(c: Consumer): int {
    match c
    case CIdle => 0
    case CToken => 3
    case CClaimed(_, _) => 2
    case CRead(_, _) => 1
  }

  lemma ProducerStepsMove(ps: seq<Producer>, i: nat, p: Producer)
    requires i < |ps|
    ensures ProducerSteps(ps[i := p]) == ProducerSteps(ps) - ProducerWeight(ps[i]) + ProducerWeight(p)
  {
    NPMove(ps, i, p);
  }

  lemma ConsumerStepsMove(cs: seq<Consumer>, i: nat, c: Consumer)
    requires i < |cs|
    ensures ConsumerSteps(cs[i := c]) == ConsumerSteps(cs) - ConsumerWeight(cs[i]) + ConsumerWeight(c)
  {
    NCMove(cs, i, c);
  }

  // A step of the shutdown: producers only finish what they began, and a wait that fails changes nothing.
  predicate Draining(a: Action) { !a.PushWait? && !a.IsTimeout() }

  predicate DrainRun(run: seq<Action>) {
    forall k :: 0 <= k < |run| ==> Draining(run[k])
  }

  ghost predicate Drained(s: State) {
    forall a :: Legal(s, a) ==> !Draining(a)
  }

  ghost predicate AllIdle(s: State) {
    && (forall p :: 0 <= p < |s.producers| ==> s.producers[p].PIdle?)
    && (forall c :: 0 <= c < |s.consumers| ==> s.consumers[c].CIdle?)
  }

  lemma DrainStepCounts(s: State, a: Action)
    requires SlotsInRange(s) && Legal(s, a) && Draining(a)
    ensures StepsLeft(Apply(s, a)) == StepsLeft(s) - 1
  {
    hide ProducerSteps, ConsumerSteps;
    if a.OfProducer() {
      ProducerStepsMove(s.producers, a.p, Apply(s, a).producers[a.p]);
    } else {
      ConsumerStepsMove(s.consumers, a.c, Apply(s, a).consumers[a.c]);
    }
  }

  // Every drain run uses up exactly one of the steps left with each step it takes.
  lemma {:induction false} DrainRunCounts(s: State, run: seq<Action>)
    requires SlotsInRange(s) && LegalRun(s, run) && DrainRun(run)
    ensures |run| + StepsLeft(After(s, run)) == StepsLeft(s)
    decreases |run|
  {
    if run != [] {
      assert Draining(run[0]);
      DrainStepCounts(s, run[0]);
      DrainRunCounts(Apply(s, run[0]), run[1..]);
    }
  }

  lemma StepsLeftBound(s: State)
    requires SlotsInRange(s) && Counted(s)
    ensures 0 <= StepsLeft(s) <= 7 * s.mem.size
  {
    Conservation(s);
  }

  lemma ProducerAt(ps: seq<Producer>, k: PKind) returns (p: nat)
    requires NP(ps, k) > 0
    ensures p < |ps| && PKindOf(ps[p]) == k
  {
    assert k in PKinds(ps);
    p :| p < |PKinds(ps)| && PKinds(ps)[p] == k;
  }

  lemma ConsumerAt(cs: seq<Consumer>, k: CKind) returns (c: nat)
    requires NC(cs, k) > 0
    ensures c < |cs| && CKindOf(cs[c]) == k
  {
    assert k in CKinds(cs);
    c :| c < |CKinds(cs)| && CKinds(cs)[c] == k;
  }

  // As long as steps are left, some thread can take one.
  lemma DrainProgress(s: State) returns (a: Action)
    requires SlotsInRange(s) && Counted(s) && |s.consumers| >= 1 && StepsLeft(s) > 0
    ensures Legal(s, a) && Draining(a)
  {
    if NP(s.producers, AtPToken) > 0 {
      var p := ProducerAt(s.producers, AtPToken);
      a := Reserve(p);
    } else if NP(s.producers, AtPReserved) > 0 {
      var p := ProducerAt(s.producers, AtPReserved);
      a := Write(p);
    } else if NP(s.producers, AtPWritten) > 0 {
      var p := ProducerAt(s.producers, AtPWritten);
      a := Publish(p);
    } else if NC(s.consumers, AtCToken) > 0 {
      var c := ConsumerAt(s.consumers, AtCToken);
      a := Claim(c);
    } else if NC(s.consumers, AtCClaimed) > 0 {
      var c := ConsumerAt(s.consumers, AtCClaimed);
      a := Read(c);
    } else if NC(s.consumers, AtCRead) > 0 {
      var c := ConsumerAt(s.consumers, AtCRead);
      a := Release(c);
    } else {
      a := PopWait(0);
      if !s.consumers[0].CIdle? {
        NCMove(s.consumers, 0, CIdle);
      }
    }
  }

  lemma NothingLeftIsIdle(s: State)
    requires SlotsInRange(s) && Counted(s) && StepsLeft(s) == 0
    ensures AllIdle(s)
    ensures s.mem.count == 0 && s.mem.pushed == s.mem.popped
    ensures s.mem.pushSem == s.mem.size && s.mem.popSem == 0
    ensures |s.receipts| == s.mem.pushed
  {
    forall p | 0 <= p < |s.producers|
      ensures s.producers[p].PIdle?
    {
      NPMove(s.producers, p, PIdle);
    }
    forall c | 0 <= c < |s.consumers|
      ensures s.consumers[c].CIdle?
    {
      NCMove(s.consumers, c, CIdle);
    }
    Conservation(s);
  }

  // A state in which no thread can take a drain step has no steps left.
  lemma DrainedHasNoneLeft(s: State)
    requires Kept(s) && |s.consumers| >= 1 && Drained(s)
    ensures StepsLeft(s) == 0
  {
    StepsLeftBound(s);
    if StepsLeft(s) > 0 {
      var a := DrainProgress(s);
    }
  }

  lemma DrainFrom(s: State, run: seq<Action>)
    requires Kept(s) && |s.consumers| >= 1
    requires LegalRun(s, run) && DrainRun(run) && Drained(After(s, run))
    ensures |run| == StepsLeft(s)
    ensures Kept(After(s, run)) && StepsLeft(After(s, run)) == 0
  {
    ShapeKeptRun(s, run);
    KeptRun(s, run);
    DrainRunCounts(s, run);
    DrainedHasNoneLeft(After(s, run));
  }

  // Shutdown. From any reachable state with a consumer, a drain run that can go no further has taken exactly
  // StepsLeft steps, at most 7 * size, and leaves every thread idle, the ring empty and all tokens home.
  lemma DrainTerminates(cells: seq<WorkItem>, producers: nat, consumers: nat, s: State, run: seq<Action>)
    requires |cells| >= 1 && consumers >= 1
    requires Reachable(cells, producers, consumers, s)
    requires LegalRun(s, run) && DrainRun(run) && Drained(After(s, run))
    ensures |run| == StepsLeft(s) <= 7 * |cells|
    ensures AllIdle(After(s, run))
    ensures After(s, run).mem.count == 0 && After(s, run).mem.pushed == After(s, run).mem.popped
    ensures After(s, run).mem.pushSem == |cells| && After(s, run).mem.popSem == 0
    ensures |After(s, run).receipts| == After(s, run).mem.pushed
  {
    KeptReachable(cells, producers, consumers, s);
    ReachableShape(cells, producers, consumers, s);
    ShapeKeptRun(s, run);
    StepsLeftBound(s);
    DrainFrom(s, run);
    NothingLeftIsIdle(After(s, run));
  }

  // A call is held up only in its timed wait, and there exactly as long as the semaphore is at 0.
  lemma OnlyWaitsBlock(s: State)
    requires SlotsInRange(s)
    ensures forall p: nat, x :: p < |s.producers| && s.producers[p].PIdle? ==>
              (Legal(s, PushWait(p, x)) <==> s.mem.pushSem > 0)
    ensures forall p: nat :: p < |s.producers| && !s.producers[p].PIdle? ==>
              exists a: Action :: Legal(s, a) && a.OfProducer() && a.p == p && !a.IsTimeout()
    ensures forall c: nat :: c < |s.consumers| && s.consumers[c].CIdle? ==>
              (Legal(s, PopWait(c)) <==> s.mem.popSem > 0)
    ensures forall c: nat :: c < |s.consumers| && !s.consumers[c].CIdle? ==>
              exists a: Action :: Legal(s, a) && !a.OfProducer() && a.c == c && !a.IsTimeout()
  {
    forall p: nat | p < |s.producers| && !s.producers[p].PIdle?
      ensures exists a: Action :: Legal(s, a) && a.OfProducer() && a.p == p && !a.IsTimeout()
    {
      assert Legal(s, NextOfProducer(s.producers[p], p));
    }
    forall c: nat | c < |s.consumers| && !s.consumers[c].CIdle?
      ensures exists a: Action :: Legal(s, a) && !a.OfProducer() && a.c == c && !a.IsTimeout()
    {
      assert Legal(s, NextOfConsumer(s.consumers[c], c));
    }
  }

  // The step a thread takes next in the middle of a call.
  function NextOfProducer(t: Producer, p: nat): (a: Action)
    requires !t.PIdle?
    ensures a.OfProducer() && a.p == p && !a.IsTimeout()
  {
    match t
    case PToken(_) => Reserve(p)
    case PReserved(_, _, _) => Write(p)
    case PWritten(_, _, _) => Publish(p)
  }

  function NextOfConsumer(t: Consumer, c: nat): (a: Action)
    requires !t.CIdle?
    ensures !a.OfProducer() && a.c == c && !a.IsTimeout()
  {
    match t
    case CToken => Claim(c)
    case CClaimed(_, _) => Read(c)
    case CRead(_, _) => Release(c)
  }

  // No deadlock: some step other than a timeout is always possible.
  lemma NeverStuck(cells: seq<WorkItem>, producers: nat, consumers: nat, s: State)
    requires |cells| >= 1 && producers >= 1 && consumers >= 1
    requires Reachable(cells, producers, consumers, s)
    ensures exists a :: Legal(s, a) && !a.IsTimeout()
    ensures AllIdle(s) ==> s.mem.pushSem + s.mem.popSem == s.mem.size
  {
    hide Reaches;
    KeptReachable(cells, producers, consumers, s);
    ReachableShape(cells, producers, consumers, s);
    StepsLeftBound(s);
    if AllIdle(s) {
      AllIdleCounts(s.producers, s.consumers);
      Conservation(s);
    }
    if StepsLeft(s) > 0 {
      var a := DrainProgress(s);
      assert Legal(s, a) && !a.IsTimeout();
    } else {
      NothingLeftIsIdle(s);
      var a := PushWait(0, cells[0]);
      assert Legal(s, a) && !a.IsTimeout();
    }
  }
}
