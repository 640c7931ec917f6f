/**
 Why ticket order is not only enough but needed: the first post made out of turn, by any system and in any
 state reached in order, leaves a state from which two threads can be brought to the same slot.
 */
module QueueTurns {
  import opened Items
  import opened QueueMemory
  import opened QueueProtocol
  import opened QueueCounts
  import opened QueueOrder
  import opened QueueDrain

  ghost predicate ProducerHas(s: State, p: int, t: int) {
    0 <= p < |s.producers| && s.producers[p].Holds() && s.producers[p].ticket == t
  }

  ghost predicate ConsumerHas(s: State, c: int, t: int) {
    0 <= c < |s.consumers| && s.consumers[c].Holds() && s.consumers[c].ticket == t
  }

  ghost predicate ProducerFor(s: State, t: int) { exists p :: ProducerHas(s, p, t) }

  ghost predicate ConsumerFor(s: State, t: int) { exists c :: ConsumerHas(s, c, t) }

  // Every ticket that is reserved and not published, or claimed and not released, has a thread that holds it.
  ghost predicate NoTicketAbandoned(s: State) {
    && (forall t :: s.published <= t < |s.log| ==> ProducerFor(s, t))
    && (forall t :: s.released <= t < s.mem.popped ==> ConsumerFor(s, t))
  }

  lemma ProducersStillHave(s: State, a: Action, t: int)
    requires Kept(s) && Legal(s, a) && InTurn(s, a)
    requires t == |s.log| || ProducerFor(s, t)
    requires Apply(s, a).published <= t < |Apply(s, a).log|
    ensures ProducerFor(Apply(s, a), t)
  {
    if a.Reserve? && t == |s.log| {
      assert ProducerHas(Apply(s, a), a.p, t);
    } else {
      var p :| ProducerHas(s, p, t);
      assert ProducerHas(Apply(s, a), p, t);
    }
  }

  lemma ConsumersStillHave(s: State, a: Action, t: int)
    requires Kept(s) && Legal(s, a) && InTurn(s, a)
    requires t == s.mem.popped || ConsumerFor(s, t)
    requires Apply(s, a).released <= t < Apply(s, a).mem.popped
    ensures ConsumerFor(Apply(s, a), t)
  {
    if a.Claim? && t == s.mem.popped {
      assert ConsumerHas(Apply(s, a), a.c, t);
    } else {
      var c :| ConsumerHas(s, c, t);
      assert ConsumerHas(Apply(s, a), c, t);
    }
  }

  lemma NoneAbandonedStep(s: State, a: Action)
    requires Kept(s) && NoTicketAbandoned(s) && Legal(s, a) && InTurn(s, a)
    ensures NoTicketAbandoned(Apply(s, a))
  {
    var s' := Apply(s, a);
    assert s.published <= s'.published && |s'.log| <= |s.log| + 1;
    assert s.released <= s'.released && s'.mem.popped <= s.mem.popped + 1;
    forall t | s'.published <= t < |s'.log|
      ensures ProducerFor(s', t)
    {
      ProducersStillHave(s, a, t);
    }
    forall t | s'.released <= t < s'.mem.popped
      ensures ConsumerFor(s', t)
    {
      ConsumersStillHave(s, a, t);
    }
  }

  lemma {:induction false} NoneAbandonedRun(s: State, run: seq<Action>)
    requires Kept(s) && NoTicketAbandoned(s) && LegalRun(s, run) && OrderedRun(s, run)
    ensures NoTicketAbandoned(After(s, run))
    decreases |run|
  {
    if run != [] {
      NoneAbandonedStep(s, run[0]);
      KeptStep(s, run[0]);
      NoneAbandonedRun(Apply(s, run[0]), run[1..]);
    }
  }

  // A producer and a consumer whose tickets share a slot.
  lemma Collide(s: State, p: int, t: int, c: int, u: int)
    requires Kept(s) && ProducerHas(s, p, t) && ConsumerHas(s, c, u)
    requires SlotOf(t, s.mem.size) == SlotOf(u, s.mem.size)
    ensures !SlotSafe(s)
  {
  }

  // The next step towards a claim, taken by consumers alone.
  lemma ConsumerStep(s: State) returns (a: Action)
    requires SlotsInRange(s) && Counted(s) && |s.consumers| >= 1 && s.mem.popped < s.published
    ensures Legal(s, a) && Draining(a) && !a.OfProducer()
    ensures a.Claim? <==> NC(s.consumers, AtCToken) > 0
  {
    if NC(s.consumers, AtCToken) > 0 {
      var c := ConsumerAt(s.consumers, AtCToken);
      a := Claim(c);
    } else if s.consumers[0].CIdle? {
      a := PopWait(0);
    } else if s.consumers[0].CClaimed? {
      a := Read(0);
    } else {
      NCMove(s.consumers, 0, CIdle);
      a := Release(0);
    }
  }

  lemma ConsumersAdvance(s: State) returns (a: Action)
    requires Kept(s) && |s.consumers| >= 1 && s.mem.popped < s.published
    ensures Legal(s, a) && !a.OfProducer() && !a.IsTimeout()
    ensures 0 <= StepsLeft(s) && StepsLeft(Apply(s, a)) < StepsLeft(s)
    ensures Apply(s, a).producers == s.producers && Apply(s, a).published == s.published
    ensures Apply(s, a).mem.popped == s.mem.popped + Bit(a.Claim?)
    ensures a.Claim? ==> ConsumerHas(Apply(s, a), a.c, s.mem.popped)
  {
    a := ConsumerStep(s);
    DrainStepCounts(s, a);
    StepsLeftBound(s);
  }

  // Runs in which only consumers move, or only producers, and no wait fails.
  predicate ByConsumers(run: seq<Action>) {
    forall k :: 0 <= k < |run| ==> !run[k].OfProducer() && !run[k].IsTimeout()
  }

  predicate ByProducers(run: seq<Action>) {
    forall k :: 0 <= k < |run| ==> run[k].OfProducer() && !run[k].IsTimeout()
  }

  lemma RunOfOne(s: State, a: Action)
    requires SlotsInRange(s) && Legal(s, a)
    ensures LegalRun(s, [a]) && After(s, [a]) == Apply(s, a)
  {
    assert [a][1..] == [];
  }

  lemma RunFromStep(s: State, a: Action, rest: seq<Action>)
    requires SlotsInRange(s) && Legal(s, a) && LegalRun(Apply(s, a), rest)
    ensures LegalRun(s, [a] + rest) && After(s, [a] + rest) == After(Apply(s, a), rest)
  {
    assert ([a] + rest)[1..] == rest;
  }

  // Consumers alone can claim any ticket below the published count, while all producers stay where they are.
  lemma {:induction false} ClaimUpTo(s: State, t: int) returns (run: seq<Action>, c: nat)
    requires Kept(s) && |s.consumers| >= 1 && s.mem.popped <= t < s.published
    ensures ByConsumers(run) && LegalRun(s, run) && Kept(After(s, run))
    ensures ConsumerHas(After(s, run), c, t)
    ensures After(s, run).producers == s.producers
    decreases StepsLeft(s)
  {
    hide Apply, Legal, SlotsInRange, StepsLeft, After, LegalRun, Counted, Ticketed;
    var a := ConsumersAdvance(s);
    KeptStep(s, a);
    if a.Claim? && s.mem.popped == t {
      run, c := [a], a.c;
      RunOfOne(s, a);
    } else {
      var rest;
      rest, c := ClaimUpTo(Apply(s, a), t);
      run := [a] + rest;
      RunFromStep(s, a, rest);
    }
  }

  // The steps producers alone can take until the push tokens run out.
  function RefillSteps(s: State): int {
    4 * s.mem.pushSem + 3 * NP(s.producers, AtPToken) + 2 * NP(s.producers, AtPReserved) + NP(s.producers, AtPWritten)
  }

  lemma RefillStepCounts(s: State, a: Action)
    requires SlotsInRange(s) && Legal(s, a) && a.OfProducer() && !a.IsTimeout()
    ensures RefillSteps(Apply(s, a)) == RefillSteps(s) - 1
  {
    hide NP;
    NPMove(s.producers, a.p, Apply(s, a).producers[a.p]);
  }

  lemma ProducerStep(s: State, x: WorkItem) returns (a: Action)
    requires SlotsInRange(s) && Counted(s) && |s.producers| >= 1 && s.mem.pushed < s.mem.size + s.released
    ensures Legal(s, a) && a.OfProducer() && !a.IsTimeout()
    ensures a.Reserve? <==> NP(s.producers, AtPToken) > 0
  {
    if NP(s.producers, AtPToken) > 0 {
      var p := ProducerAt(s.producers, AtPToken);
      a := Reserve(p);
    } else if s.producers[0].PIdle? {
      a := PushWait(0, x);
    } else if s.producers[0].PReserved? {
      a := Write(0);
    } else {
      NPMove(s.producers, 0, PIdle);
      a := Publish(0);
    }
  }

  lemma ProducersAdvance(s: State, x: WorkItem) returns (a: Action)
    requires Kept(s) && |s.producers| >= 1 && s.mem.pushed < s.mem.size + s.released
    ensures Legal(s, a) && a.OfProducer() && !a.IsTimeout()
    ensures 0 <= RefillSteps(s) && RefillSteps(Apply(s, a)) < RefillSteps(s)
    ensures Apply(s, a).consumers == s.consumers && Apply(s, a).released == s.released
    ensures Apply(s, a).mem.pushed == s.mem.pushed + Bit(a.Reserve?)
    ensures a.Reserve? ==> ProducerHas(Apply(s, a), a.p, s.mem.pushed)
  {
    a := ProducerStep(s, x);
    RefillStepCounts(s, a);
  }

  // Producers alone can reserve any ticket the released count leaves room for, while all consumers stay put.
  lemma {:induction false} ReserveUpTo(s: State, t: int, x: WorkItem) returns (run: seq<Action>, p: nat)
    requires Kept(s) && |s.producers| >= 1 && s.mem.pushed <= t < s.mem.size + s.released
    ensures ByProducers(run) && LegalRun(s, run) && Kept(After(s, run))
    ensures ProducerHas(After(s, run), p, t)
    ensures After(s, run).consumers == s.consumers && After(s, run).mem.size == s.mem.size
    decreases RefillSteps(s)
  {
    hide Apply, Legal, SlotsInRange, RefillSteps, After, LegalRun, Counted, Ticketed;
    var a := ProducersAdvance(s, x);
    KeptStep(s, a);
    if a.Reserve? && s.mem.pushed == t {
      run, p := [a], a.p;
      RunOfOne(s, a);
    } else {
      var rest;
      rest, p := ReserveUpTo(Apply(s, a), t, x);
      run := [a] + rest;
      RunFromStep(s, a, rest);
    }
  }

  lemma AfterEarlyPublish(s: State, p: nat) returns (q: nat)
    requires Kept(s) && NoTicketAbandoned(s) && TurnsKept(s)
    requires Legal(s, Publish(p)) && !InTurn(s, Publish(p))
    ensures
      var s1 := Apply(s, Publish(p));
      && Kept(s1) && ProducerHas(s1, q, s.published)
      && s1.published == s.published + 1 && s1.mem.popped <= s.published
  {
    assert s.mem.popped <= s.published < |s.log| && ProducerFor(s, s.published);
    q :| ProducerHas(s, q, s.published);
    KeptStep(s, Publish(p));
    assert ProducerHas(Apply(s, Publish(p)), q, s.published);
  }

  lemma EarlyPublishCollides(s: State, p: nat) returns (s': State)
    requires Kept(s) && NoTicketAbandoned(s) && TurnsKept(s)
    requires |s.consumers| >= 1 && Legal(s, Publish(p)) && !InTurn(s, Publish(p))
    ensures Reaches(Apply(s, Publish(p)), s') && SlotsInRange(s') && !SlotSafe(s')
  {
    hide TurnsKept, NoTicketAbandoned, Counted, Ticketed, SlotOf, SlotSafe;
    var t := s.published;
    var q := AfterEarlyPublish(s, p);
    var s1 := Apply(s, Publish(p));
    var run, c := ClaimUpTo(s1, t);
    s' := After(s1, run);
    Collide(s', q, t, c, t);
  }

  lemma AfterEarlyRelease(s: State, c: nat) returns (d: nat)
    requires Kept(s) && NoTicketAbandoned(s) && TurnsKept(s)
    requires Legal(s, Release(c)) && !InTurn(s, Release(c))
    ensures
      var s1 := Apply(s, Release(c));
      && Kept(s1) && ConsumerHas(s1, d, s.released)
      && s1.released == s.released + 1 && s1.mem.pushed <= s.released + s.mem.size
  {
    assert s.released < s.mem.popped && ConsumerFor(s, s.released);
    d :| ConsumerHas(s, d, s.released);
    KeptStep(s, Release(c));
    assert ConsumerHas(Apply(s, Release(c)), d, s.released);
  }

  lemma EarlyReleaseCollides(s: State, c: nat) returns (s': State)
    requires Kept(s) && NoTicketAbandoned(s) && TurnsKept(s)
    requires |s.producers| >= 1 && Legal(s, Release(c)) && !InTurn(s, Release(c))
    ensures Reaches(Apply(s, Release(c)), s') && SlotsInRange(s') && !SlotSafe(s')
  {
    hide TurnsKept, NoTicketAbandoned, Counted, Ticketed, SlotOf, SlotSafe;
    var held, size := s.released, s.mem.size;
    var d := AfterEarlyRelease(s, c);
    var s1 := Apply(s, Release(c));
    var run, p := ReserveUpTo(s1, held + size, s.mem.cells[0]);
    s' := After(s1, run);
    SlotWraps(held, size);
    Collide(s', p, held + size, d, held);
  }

  lemma OrderedRunKeeps(cells: seq<WorkItem>, producers: nat, consumers: nat, run: seq<Action>)
    requires |cells| >= 1
    requires LegalRun(Init(cells, producers, consumers), run)
    requires OrderedRun(Init(cells, producers, consumers), run)
    ensures
      var s := After(Init(cells, producers, consumers), run);
      && Kept(s) && NoTicketAbandoned(s) && TurnsKept(s)
      && |s.producers| == producers && |s.consumers| == consumers
  {
    var s0 := Init(cells, producers, consumers);
    InitOrderly(cells, producers, consumers);
    OrderlyRun(s0, run);
    NoneAbandonedRun(s0, run);
    ShapeKeptRun(s0, run);
  }

  // Ticket order is needed. Any post that breaks it, in any state an ordered run has reached, makes a slot
  // collision reachable; so a system is safe exactly as long as its posts stay in turn.
  lemma FirstPostOutOfTurnIsFatal(cells: seq<WorkItem>, producers: nat, consumers: nat, run: seq<Action>, a: Action)
    returns (s': State)
    requires |cells| >= 1 && producers >= 1 && consumers >= 1
    requires LegalRun(Init(cells, producers, consumers), run)
    requires OrderedRun(Init(cells, producers, consumers), run)
    requires Legal(After(Init(cells, producers, consumers), run), a)
    requires !InTurn(After(Init(cells, producers, consumers), run), a)
    ensures Reaches(Apply(After(Init(cells, producers, consumers), run), a), s')
    ensures SlotsInRange(s') && !SlotSafe(s')
  {
    hide Kept, NoTicketAbandoned, TurnsKept, SlotSafe, Reaches, Apply;
    OrderedRunKeeps(cells, producers, consumers, run);
    var s := After(Init(cells, producers, consumers), run);
    if a.Publish? {
      s' := EarlyPublishCollides(s, a.p);
    } else {
      s' := EarlyReleaseCollides(s, a.c);
    }
  }
}
