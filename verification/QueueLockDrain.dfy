/**
 Progress with the lock taken apart: whoever is inside the lock can always move on, so the queue never blocks
 for good, and once pushing stops it drains in a known number of single statements.
 */
module QueueLockDrain {
  import opened Items
  import opened QueueProtocol
  import opened QueueCounts
  import opened QueueDrain
  import opened QueueLock

  // The statements left once no push starts any more. A push from its token on has seven, a whole pop nine;
  // the counts know only where a thread is outside the lock, so the holder's place inside is added.
  function LStepsLeft(l: LState): int {
    LProducerSteps(l.q.producers) + 9 * l.q.mem.popSem + LConsumerSteps(l.q.consumers) + HolderSteps(l)
  }

  function LProducerSteps(ps: seq<Producer>): int {
    16 * NP(ps, AtPToken) + 11 * NP(ps, AtPReserved) + 10 * NP(ps, AtPWritten)
  }

  function LConsumerSteps(cs: seq<Consumer>): int {
    8 * NC(cs, AtCToken) + 2 * NC(cs, AtCClaimed) + NC(cs, AtCRead)
  }

  function PStageSteps(stage: PStage): int {
    match stage
    case POut => 0
    case PEntered => -1
    case PSlotted(_) => -2
    case PCounted => 2
    case PBumped => 1
  }

  function CStageSteps(stage: CStage): int {
    match stage
    case COut => 0
    case CEntered => -1
    case CSlotted(_) => -2
    case CAdvanced => 3
    case CDropped => 2
    case CBumped => 1
  }

  function HolderSteps(l: LState): int {
    match l.holder
    case Nobody => 0
    case ProducerIn(p) => if p < |l.pStages| then PStageSteps(l.pStages[p]) else 0
    case ConsumerIn(c) => if c < |l.cStages| then CStageSteps(l.cStages[c]) else 0
  }

  function LProducerWeight(p: Producer): int {
    match p
    case PIdle => 0
    case PToken(_) => 16
    case PReserved(_, _, _) => 11
    case PWritten(_, _, _) => 10
  }

  function LConsumerWeight(c: Consumer): int {
    match c
    case CIdle => 0
    case CToken => 8
    case CClaimed(_, _) => 2
    case CRead(_, _) => 1
  }

  lemma LProducerStepsMove(ps: seq<Producer>, i: nat, p: Producer)
    requires i < |ps|
    ensures LProducerSteps(ps[i := p]) == LProducerSteps(ps) - LProducerWeight(ps[i]) + LProducerWeight(p)
    ensures LProducerSteps(ps) >= LProducerWeight(ps[i])
  {
    NPMove(ps, i, p);
  }

  lemma LConsumerStepsMove(cs: seq<Consumer>, i: nat, c: Consumer)
    requires i < |cs|
    ensures LConsumerSteps(cs[i := c]) == LConsumerSteps(cs) - LConsumerWeight(cs[i]) + LConsumerWeight(c)
    ensures LConsumerSteps(cs) >= LConsumerWeight(cs[i])
  {
    NCMove(cs, i, c);
  }

  // A statement of the shutdown, inside the lock or outside.
  predicate LDraining(la: LAction) { la.Outside? ==> Draining(la.a) }

  predicate LDrainRun(run: seq<LAction>) {
    forall k :: 0 <= k < |run| ==> LDraining(run[k])
  }

  ghost predicate LDrained(l: LState)
    requires LShape(l)
  {
    forall la :: LLegal(l, la) ==> !LDraining(la)
  }

  // What all runs keep, with the lock and in the atomic system it stands for.
  ghost predicate LKept(l: LState) { LInv(l) && Kept(Abs(l)) }

  lemma LKeptStep(l: LState, la: LAction)
    requires LKept(l) && LLegal(l, la)
    ensures LKept(LApply(l, la))
    ensures |LApply(l, la).q.consumers| == |l.q.consumers|
  {
    hide Kept;
    if la.Outside? {
      OutsideKeepsInv(l, la.a);
      OutsideStep(l, la.a);
      KeptStep(Abs(l), la.a);
    } else if la.InPush() {
      PushStep(l, la);
      if la.PCount? {
        KeptStep(Abs(l), Reserve(la.p));
      }
    } else {
      PopStep(l, la);
      if la.CAdvance? {
        KeptStep(Abs(l), Claim(la.c));
      }
    }
  }

  lemma OutsideCounts(l: LState, a: Action)
    requires LInv(l) && LLegal(l, Outside(a)) && Draining(a)
    ensures LStepsLeft(LApply(l, Outside(a))) == LStepsLeft(l) - 1
  {
    hide LProducerSteps, LConsumerSteps;
    if a.OfProducer() {
      LProducerStepsMove(l.q.producers, a.p, Apply(l.q, a).producers[a.p]);
    } else {
      LConsumerStepsMove(l.q.consumers, a.c, Apply(l.q, a).consumers[a.c]);
    }
  }

  lemma PushSectionCounts(l: LState, la: LAction)
    requires LInv(l) && LLegal(l, la) && la.InPush()
    ensures LStepsLeft(LApply(l, la)) == LStepsLeft(l) - 1
  {
    hide LProducerSteps, LConsumerSteps;
    assert la.PEnter? || l.holder == ProducerIn(la.p);
    if la.PCount? {
      LProducerStepsMove(l.q.producers, la.p, LApply(l, la).q.producers[la.p]);
    }
  }

  lemma PopSectionCounts(l: LState, la: LAction)
    requires LInv(l) && LLegal(l, la) && !la.InPush() && !la.Outside?
    ensures LStepsLeft(LApply(l, la)) == LStepsLeft(l) - 1
  {
    hide LProducerSteps, LConsumerSteps;
    assert la.CEnter? || l.holder == ConsumerIn(la.c);
    if la.CAdvance? {
      LConsumerStepsMove(l.q.consumers, la.c, LApply(l, la).q.consumers[la.c]);
    }
  }

  // Every statement of a drain run uses up exactly one of the statements left.
  lemma {:induction false} LDrainRunCounts(l: LState, run: seq<LAction>)
    requires LKept(l) && LLegalRun(l, run) && LDrainRun(run)
    ensures LKept(LAfter(l, run)) && |LAfter(l, run).q.consumers| == |l.q.consumers|
    ensures |run| + LStepsLeft(LAfter(l, run)) == LStepsLeft(l)
    decreases |run|
  {
    hide LStepsLeft, LApply, LLegal, Kept, Exclusive, SlotsFresh, Abs;
    if run != [] {
      var la := run[0];
      assert LDraining(la);
      OneStatementCounts(l, la);
      LKeptStep(l, la);
      LDrainRunCounts(LApply(l, la), run[1..]);
    }
  }

  lemma OneStatementCounts(l: LState, la: LAction)
    requires LKept(l) && LLegal(l, la) && LDraining(la)
    ensures LStepsLeft(LApply(l, la)) == LStepsLeft(l) - 1
  {
    hide LStepsLeft, LApply;
    if la.Outside? {
      OutsideCounts(l, la.a);
    } else if la.InPush() {
      PushSectionCounts(l, la);
    } else {
      PopSectionCounts(l, la);
    }
  }

  // The thread inside the lock is never held up there.
  lemma HolderMovesOn(l: LState) returns (la: LAction)
    requires LInv(l) && !l.holder.Nobody?
    ensures LLegal(l, la) && !la.Outside?
    ensures l.holder == if la.InPush() then ProducerIn(la.p) else ConsumerIn(la.c)
  {
    if l.holder.ProducerIn? {
      var p := l.holder.p;
      match l.pStages[p]
      case PEntered => la := PSlot(p);
      case PSlotted(_) => la := PCount(p);
      case PCounted => la := PBump(p);
      case PBumped => la := PLeave(p);
    } else {
      var c := l.holder.c;
      match l.cStages[c]
      case CEntered => la := CSlot(c);
      case CSlotted(_) => la := CAdvance(c);
      case CAdvanced => la := CDrop(c);
      case CDropped => la := CBump(c);
      case CBumped => la := CLeave(c);
    }
  }

  // Conservation, read off the fields and the completed count.
  lemma TokensConserved(l: LState)
    requires LKept(l)
    ensures l.q.mem.pushSem >= 0 && l.q.mem.popSem >= 0
    ensures l.q.mem.pushSem + NP(l.q.producers, AtPToken) + Abs(l).mem.count + ConsumersHolding(l.q) == l.q.mem.size
    ensures l.q.mem.popSem + NC(l.q.consumers, AtCToken) + ProducersHolding(l.q) == Abs(l).mem.count
  {
    hide Ticketed, Exclusive, SlotsFresh, LShape;
    Conservation(Abs(l));
  }

  // The lock holds up nothing but entering it: a thread that is not inside takes its other steps as it would without
  // the lock, and enters exactly when nobody is inside.
  lemma OnlyEnteringWaits(l: LState)
    requires LInv(l)
    ensures forall a: Action :: !a.Reserve? && !a.Claim? && (!l.holder.Nobody? ==>
                l.holder != if a.OfProducer() then ProducerIn(a.p) else ConsumerIn(a.c)) ==>
              (LLegal(l, Outside(a)) <==> Legal(l.q, a))
    ensures forall p: nat :: LLegal(l, PEnter(p)) <==> Legal(l.q, Reserve(p)) && l.holder.Nobody?
    ensures forall c: nat :: LLegal(l, CEnter(c)) <==> Legal(l.q, Claim(c)) && l.holder.Nobody?
  {
  }

  // A thread inside the lock is counted outside it as one with or without a slot.
  lemma HolderStepsBound(l: LState)
    requires LInv(l)
    ensures -2 <= HolderSteps(l) <= 3
    ensures HolderSteps(l) < 0 ==> NP(l.q.producers, AtPToken) + NC(l.q.consumers, AtCToken) > 0
    ensures HolderSteps(l) > 0 ==> NP(l.q.producers, AtPReserved) + NC(l.q.consumers, AtCClaimed) > 0
    ensures l.holder.Nobody? <==> HolderSteps(l) == 0
  {
    hide NP, NC, SlotsFresh;
    match l.holder
    case Nobody =>
    case ProducerIn(p) => NPMove(l.q.producers, p, PIdle);
    case ConsumerIn(c) => NCMove(l.q.consumers, c, CIdle);
  }

  lemma LStepsLeftBound(l: LState)
    requires LKept(l)
    ensures 0 <= LStepsLeft(l) <= 16 * l.q.mem.size
    ensures !l.holder.Nobody? ==> LStepsLeft(l) > 0
  {
    hide Kept, Abs, HolderSteps, NP, NC, LShape, Exclusive, SlotsFresh;
    TokensConserved(l);
    HolderStepsBound(l);
  }

  // With nobody inside the lock, what a thread can do in the atomic system it can begin here.
  function Begin(a: Action): LAction {
    match a
    case Reserve(p) => PEnter(p)
    case Claim(c) => CEnter(c)
    case _ => Outside(a)
  }

  lemma FreeLockBegins(l: LState, a: Action)
    requires LInv(l) && l.holder.Nobody? && Legal(l.q, a)
    ensures LLegal(l, Begin(a))
  {
  }

  lemma FreeLockSteps(l: LState)
    requires LKept(l) && l.holder.Nobody?
    ensures Abs(l) == l.q && (LStepsLeft(l) > 0 <==> StepsLeft(l.q) > 0) && StepsLeft(l.q) >= 0
  {
    StepsLeftBound(l.q);
  }

  // As long as statements are left, some thread can run one.
  lemma LDrainProgress(l: LState) returns (la: LAction)
    requires LKept(l) && |l.q.consumers| >= 1 && LStepsLeft(l) > 0
    ensures LLegal(l, la) && LDraining(la)
  {
    hide LStepsLeft, StepsLeft, Legal;
    if l.holder.Nobody? {
      FreeLockSteps(l);
      var a := DrainProgress(l.q);
      FreeLockBegins(l, a);
      la := Begin(a);
    } else {
      la := HolderMovesOn(l);
    }
  }

  lemma LReachableKept(cells: seq<WorkItem>, producers: nat, consumers: nat, l: LState)
    requires |cells| >= 1 && LReachable(cells, producers, consumers, l)
    ensures LKept(l) && l.q.mem.size == |cells|
    ensures |l.q.producers| == producers && |l.q.consumers| == consumers
  {
    CriticalSectionReduction(cells, producers, consumers);
    KeptReachable(cells, producers, consumers, Abs(l));
    ReachableShape(cells, producers, consumers, Abs(l));
  }

  lemma LNothingLeft(l: LState)
    requires LKept(l) && LStepsLeft(l) == 0
    ensures l.lock == 1 && AllIdle(l.q)
    ensures l.q.mem.count == 0 && l.q.mem.pushed == l.q.mem.popped
    ensures l.q.mem.pushSem == l.q.mem.size && l.q.mem.popSem == 0
    ensures |l.q.receipts| == l.q.mem.pushed
  {
    hide LStepsLeft, StepsLeft;
    LStepsLeftBound(l);
    FreeLockSteps(l);
    NothingLeftIsIdle(l.q);
  }

  // Shutdown statement by statement. From any state reached with the lock, a drain run that can go no further
  // has run exactly LStepsLeft statements, at most 16 * size, and leaves the lock free, every thread idle, the
  // ring empty, all tokens home and everything delivered.
  lemma DrainTerminatesWithLock(cells: seq<WorkItem>, producers: nat, consumers: nat, l: LState, run: seq<LAction>)
    requires |cells| >= 1 && consumers >= 1
    requires LReachable(cells, producers, consumers, l)
    requires LLegalRun(l, run) && LDrainRun(run) && LDrained(LAfter(l, run))
    ensures |run| == LStepsLeft(l) <= 16 * |cells|
    ensures LAfter(l, run).lock == 1 && AllIdle(LAfter(l, run).q)
    ensures
      var m := LAfter(l, run).q.mem;
      && m.count == 0 && m.pushed == m.popped && m.pushSem == m.size && m.popSem == 0
      && |LAfter(l, run).q.receipts| == m.pushed
  {
    hide LStepsLeft, LReachable;
    LReachableKept(cells, producers, consumers, l);
    LStepsLeftBound(l);
    LDrainRunCounts(l, run);
    var end := LAfter(l, run);
    LStepsLeftBound(end);
    if LStepsLeft(end) > 0 {
      var la := LDrainProgress(end);
    }
    LNothingLeft(end);
  }

  // No deadlock with the lock: in every state reached some statement other than a timeout can run.
  lemma NeverStuckWithLock(cells: seq<WorkItem>, producers: nat, consumers: nat, l: LState)
    requires |cells| >= 1 && producers >= 1 && consumers >= 1
    requires LReachable(cells, producers, consumers, l)
    ensures exists la :: LLegal(l, la) && !(la.Outside? && la.a.IsTimeout())
  {
    hide LReachable;
    LReachableKept(cells, producers, consumers, l);
    LStepsLeftBound(l);
    if LStepsLeft(l) > 0 {
      var la := LDrainProgress(l);
      assert LLegal(l, la) && !(la.Outside? && la.a.IsTimeout());
    } else {
      LNothingLeft(l);
      var la := Outside(PushWait(0, cells[0]));
      assert LLegal(l, la) && !(la.Outside? && la.a.IsTimeout());
    }
  }
}
