/**
 The queue with its lock taken apart: every statement of the two critical sections is a step of its own, so
 threads interleave inside them as far as the lock lets them. Each run of this system is a run of the one
 whose reservations and claims are single steps, and the other way round.
 */
module QueueLock {
  import opened Items
  import opened QueueMemory
  import opened QueueProtocol
  import opened QueueCounts
  import opened QueueOrder
  import opened QueueBoundary

  // How far a producer is inside the critical section of `push`.
  datatype PStage = POut | PEntered | PSlotted(slot: int) | PCounted | PBumped

  // How far a consumer is inside the critical section of `pop`.
  datatype CStage = COut | CEntered | CSlotted(slot: int) | CAdvanced | CDropped | CBumped

  // Who is between the wait on the lock and the post. This is history; the source has only the lock value.
  datatype Holder = Nobody | ProducerIn(p: nat) | ConsumerIn(c: nat)

  datatype LState = LState(q: State, lock: int, pStages: seq<PStage>, cStages: seq<CStage>, holder: Holder)

  datatype LAction =
    | Outside(a: Action)
    | PEnter(p: nat) | PSlot(p: nat) | PCount(p: nat) | PBump(p: nat) | PLeave(p: nat)
    | CEnter(c: nat) | CSlot(c: nat) | CAdvance(c: nat) | CDrop(c: nat) | CBump(c: nat) | CLeave(c: nat)
  {
    predicate InPush() { PEnter? || PSlot? || PCount? || PBump? || PLeave? }
  }

  predicate PStageFits(q: State, t: Producer, stage: PStage)
    requires WellFormed(q.mem)
  {
    match stage
    case POut => true
    case PEntered => t.PToken?
    case PSlotted(slot) => t.PToken? && 0 <= slot < q.mem.size
    case _ => t.PReserved?
  }

  predicate CStageFits(q: State, t: Consumer, stage: CStage)
    requires WellFormed(q.mem)
  {
    match stage
    case COut => true
    case CEntered => t.CToken?
    case CSlotted(slot) => t.CToken? && 0 <= slot < q.mem.size
    case _ => t.CClaimed?
  }

  predicate LShape(l: LState) {
    && SlotsInRange(l.q)
    && |l.pStages| == |l.q.producers| && |l.cStages| == |l.q.consumers|
    && (forall p :: 0 <= p < |l.pStages| ==> PStageFits(l.q, l.q.producers[p], l.pStages[p]))
    && (forall c :: 0 <= c < |l.cStages| ==> CStageFits(l.q, l.q.consumers[c], l.cStages[c]))
  }

  predicate LLegal(l: LState, la: LAction)
    requires LShape(l)
  {
    match la
    case Outside(a) =>
      && Legal(l.q, a) && !a.Reserve? && !a.Claim?
      && if a.OfProducer() then l.pStages[a.p].POut? else l.cStages[a.c].COut?
    case PEnter(p) => p < |l.pStages| && l.pStages[p].POut? && l.q.producers[p].PToken? && l.lock > 0
    case PSlot(p) => p < |l.pStages| && l.pStages[p].PEntered?
    case PCount(p) => p < |l.pStages| && l.pStages[p].PSlotted?
    case PBump(p) => p < |l.pStages| && l.pStages[p].PCounted?
    case PLeave(p) => p < |l.pStages| && l.pStages[p].PBumped?
    case CEnter(c) => c < |l.cStages| && l.cStages[c].COut? && l.q.consumers[c].CToken? && l.lock > 0
    case CSlot(c) => c < |l.cStages| && l.cStages[c].CEntered?
    case CAdvance(c) => c < |l.cStages| && l.cStages[c].CSlotted?
    case CDrop(c) => c < |l.cStages| && l.cStages[c].CAdvanced?
    case CBump(c) => c < |l.cStages| && l.cStages[c].CDropped?
    case CLeave(c) => c < |l.cStages| && l.cStages[c].CBumped?
  }

  function PushSection(l: LState, la: LAction): (l': LState)
    requires LShape(l) && LLegal(l, la) && la.InPush()
    ensures LShape(l')
  {
    var p := la.p;
    match la
    case PEnter(_) => l.(lock := l.lock - 1, holder := ProducerIn(p), pStages := l.pStages[p := PEntered])
    case PSlot(_) => l.(pStages := l.pStages[p := PSlotted(NextSlot(l.q.mem))])
    case PCount(_) =>
      var item := l.q.producers[p].item;
      l.(q := l.q.(mem := l.q.mem.(count := l.q.mem.count + 1),
      producers := l.q.producers[p := PReserved(item, l.pStages[p].slot, l.q.mem.pushed)],
      log := l.q.log + [item]),
      pStages := l.pStages[p := PCounted])
    case PBump(_) =>
      l.(q := l.q.(mem := l.q.mem.(pushed := l.q.mem.pushed + 1)), pStages := l.pStages[p := PBumped])
    case PLeave(_) => l.(lock := l.lock + 1, holder := Nobody, pStages := l.pStages[p := POut])
  }

  function PopSection(l: LState, la: LAction): (l': LState)
    requires LShape(l) && LLegal(l, la) && !la.InPush() && !la.Outside?
    ensures LShape(l')
  {
    var c := la.c;
    match la
    case CEnter(_) => l.(lock := l.lock - 1, holder := ConsumerIn(c), cStages := l.cStages[c := CEntered])
    case CSlot(_) => l.(cStages := l.cStages[c := CSlotted(l.q.mem.front)])
    case CAdvance(_) =>
      l.(q := l.q.(mem := l.q.mem.(front := (l.q.mem.front + 1) % l.q.mem.size),
      consumers := l.q.consumers[c := CClaimed(l.cStages[c].slot, l.q.mem.popped)]),
      cStages := l.cStages[c := CAdvanced])
    case CDrop(_) =>
      l.(q := l.q.(mem := l.q.mem.(count := l.q.mem.count - 1)), cStages := l.cStages[c := CDropped])
    case CBump(_) =>
      l.(q := l.q.(mem := l.q.mem.(popped := l.q.mem.popped + 1)), cStages := l.cStages[c := CBumped])
    case CLeave(_) => l.(lock := l.lock + 1, holder := Nobody, cStages := l.cStages[c := COut])
  }

  lemma OutsideShape(l: LState, a: Action)
    requires LShape(l) && LLegal(l, Outside(a))
    ensures LShape(l.(q := Apply(l.q, a)))
  {
  }

  function LApply(l: LState, la: LAction): (l': LState)
    requires LShape(l) && LLegal(l, la)
    ensures LShape(l')
  {
    if la.Outside? then
      OutsideShape(l, la.a);
      l.(q := Apply(l.q, la.a))
    else if la.InPush() then PushSection(l, la)
    else PopSection(l, la)
  }

  predicate LLegalRun(l: LState, run: seq<LAction>)
    requires LShape(l)
    decreases |run|
  {
    run == [] || (LLegal(l, run[0]) && LLegalRun(LApply(l, run[0]), run[1..]))
  }

  function LAfter(l: LState, run: seq<LAction>): (l': LState)
    requires LShape(l) && LLegalRun(l, run)
    ensures LShape(l')
    decreases |run|
  {
    if run == [] then l else LAfter(LApply(l, run[0]), run[1..])
  }

  ghost predicate LReaches(l: LState, l': LState)
    requires LShape(l)
    ensures LReaches(l, l') ==> LShape(l')
  {
    exists run :: LLegalRun(l, run) && LAfter(l, run) == l'
  }

  // The lock is free exactly when nobody is inside, and whoever is inside is inside alone.
  ghost predicate Exclusive(l: LState) {
    && l.lock == (if l.holder.Nobody? then 1 else 0)
    && (forall p :: 0 <= p < |l.pStages| ==> (l.pStages[p] != POut <==> l.holder == ProducerIn(p)))
    && (forall c :: 0 <= c < |l.cStages| ==> (l.cStages[c] != COut <==> l.holder == ConsumerIn(c)))
    && (l.holder.ProducerIn? ==> l.holder.p < |l.pStages|)
    && (l.holder.ConsumerIn? ==> l.holder.c < |l.cStages|)
  }

  // A slot computed inside the critical section is still the right one when it is used.
  ghost predicate SlotsFresh(l: LState)
    requires LShape(l)
  {
    && (forall p :: 0 <= p < |l.pStages| && l.pStages[p].PSlotted? ==> l.pStages[p].slot == NextSlot(l.q.mem))
    && (forall c :: 0 <= c < |l.cStages| && l.cStages[c].CSlotted? ==> l.cStages[c].slot == l.q.mem.front)
  }

  ghost predicate LInv(l: LState) { LShape(l) && Exclusive(l) && SlotsFresh(l) }

  // The state with the holder's half-done bookkeeping completed.
  function Abs(l: LState): State
    requires LShape(l)
  {
    var m := l.q.mem;
    if l.holder.ProducerIn? && l.holder.p < |l.pStages| && l.pStages[l.holder.p].PCounted? then
      l.q.(mem := m.(pushed := m.pushed + 1))
    else if l.holder.ConsumerIn? && l.holder.c < |l.cStages| && l.cStages[l.holder.c].CAdvanced? then
      l.q.(mem := m.(count := m.count - 1, popped := m.popped + 1))
    else if l.holder.ConsumerIn? && l.holder.c < |l.cStages| && l.cStages[l.holder.c].CDropped? then
      l.q.(mem := m.(popped := m.popped + 1))
    else l.q
  }

  // The steps outside the critical sections neither read nor write what is bookkept inside them.
  lemma OutsideCommutes(s: State, a: Action, count: int, pushed: int, popped: int)
    requires SlotsInRange(s) && Legal(s, a) && !a.Reserve? && !a.Claim?
    ensures
      var t := s.(mem := s.mem.(count := count, pushed := pushed, popped := popped));
      var s' := Apply(s, a);
      && SlotsInRange(t) && Legal(t, a)
      && Apply(t, a) == s'.(mem := s'.mem.(count := count, pushed := pushed, popped := popped))
      && s'.mem.front == s.mem.front && s'.mem.count == s.mem.count
      && s'.mem.pushed == s.mem.pushed && s'.mem.popped == s.mem.popped
  {
  }

  lemma OutsideKeepsInv(l: LState, a: Action)
    requires LInv(l) && LLegal(l, Outside(a))
    ensures LInv(LApply(l, Outside(a)))
  {
    OutsideCommutes(l.q, a, l.q.mem.count, l.q.mem.pushed, l.q.mem.popped);
  }

  lemma OutsideStep(l: LState, a: Action)
    requires LInv(l) && LLegal(l, Outside(a))
    ensures SlotsInRange(Abs(l)) && Legal(Abs(l), a)
    ensures Abs(LApply(l, Outside(a))) == Apply(Abs(l), a)
  {
    hide Apply, Legal, SlotsInRange;
    var m := Abs(l).mem;
    OutsideCommutes(l.q, a, m.count, m.pushed, m.popped);
  }

  lemma PushStep(l: LState, la: LAction)
    requires LInv(l) && LLegal(l, la) && la.InPush()
    ensures LInv(LApply(l, la))
    ensures SlotsInRange(Abs(l))
    ensures if la.PCount? then Legal(Abs(l), Reserve(la.p)) && Abs(LApply(l, la)) == Apply(Abs(l), Reserve(la.p))
            else Abs(LApply(l, la)) == Abs(l)
  {
  }

  lemma PopKeepsInv(l: LState, la: LAction)
    requires LInv(l) && LLegal(l, la) && !la.InPush() && !la.Outside?
    ensures LInv(LApply(l, la))
  {
  }

  lemma PopStep(l: LState, la: LAction)
    requires LInv(l) && LLegal(l, la) && !la.InPush() && !la.Outside?
    ensures LInv(LApply(l, la))
    ensures SlotsInRange(Abs(l))
    ensures if la.CAdvance? then Legal(Abs(l), Claim(la.c)) && Abs(LApply(l, la)) == Apply(Abs(l), Claim(la.c))
            else Abs(LApply(l, la)) == Abs(l)
  {
    hide NextSlot;
    PopKeepsInv(l, la);
  }

  lemma {:induction false} RunRefines(s0: State, l: LState, run: seq<LAction>)
    requires LInv(l) && LLegalRun(l, run)
    requires SlotsInRange(s0) && SlotsInRange(Abs(l)) && Reaches(s0, Abs(l))
    ensures LInv(LAfter(l, run))
    ensures Reaches(s0, Abs(LAfter(l, run)))
    decreases |run|
  {
    if run != [] {
      var la := run[0];
      if la.Outside? {
        OutsideKeepsInv(l, la.a);
        OutsideStep(l, la.a);
        ReachesNext(s0, Abs(l), la.a);
      } else if la.InPush() {
        PushStep(l, la);
        if la.PCount? {
          ReachesNext(s0, Abs(l), Reserve(la.p));
        }
      } else {
        PopStep(l, la);
        if la.CAdvance? {
          ReachesNext(s0, Abs(l), Claim(la.c));
        }
      }
      RunRefines(s0, LApply(l, la), run[1..]);
    }
  }

  // A state of the atomic system seen as one in which nobody is inside the lock.
  function Unlocked(s: State): (l: LState)
    requires SlotsInRange(s)
    ensures LInv(l) && Abs(l) == s
  {
    LState(s, 1, seq(|s.producers|, _ => POut), seq(|s.consumers|, _ => COut), Nobody)
  }

  // A state some run of a fresh queue with its lock ends in.
  ghost predicate LReachable(cells: seq<WorkItem>, producers: nat, consumers: nat, l: LState)
    requires |cells| >= 1
    ensures LReachable(cells, producers, consumers, l) ==> LShape(l)
  {
    LReaches(Unlocked(Init(cells, producers, consumers)), l)
  }

  lemma {:induction false} LExtendRun(l: LState, run: seq<LAction>, la: LAction)
    requires LShape(l) && LLegalRun(l, run) && LLegal(LAfter(l, run), la)
    ensures LLegalRun(l, run + [la]) && LAfter(l, run + [la]) == LApply(LAfter(l, run), la)
    decreases |run|
  {
    if run == [] {
      assert [la][1..] == [];
    } else {
      LExtendRun(LApply(l, run[0]), run[1..], la);
      assert (run + [la])[1..] == run[1..] + [la];
    }
  }

  lemma LStep(l0: LState, l: LState, la: LAction) returns (l': LState)
    requires LShape(l0) && LShape(l) && LReaches(l0, l) && LLegal(l, la)
    ensures l' == LApply(l, la) && LReaches(l0, l')
  {
    var run :| LLegalRun(l0, run) && LAfter(l0, run) == l;
    LExtendRun(l0, run, la);
    l' := LApply(l, la);
  }

  lemma LiftReserveEnter(l0: LState, s: State, p: nat) returns (l: LState)
    requires LShape(l0) && SlotsInRange(s) && LReaches(l0, Unlocked(s)) && Legal(s, Reserve(p))
    ensures LShape(l) && LReaches(l0, l)
    ensures l == Unlocked(s).(lock := 0, holder := ProducerIn(p),
                              pStages := Unlocked(s).pStages[p := PSlotted(NextSlot(s.mem))])
  {
    hide LReaches, LShape;
    l := LStep(l0, Unlocked(s), PEnter(p));
    l := LStep(l0, l, PSlot(p));
  }

  lemma LiftReserveBody(l0: LState, s: State, p: nat) returns (l: LState)
    requires LShape(l0) && SlotsInRange(s) && LReaches(l0, Unlocked(s)) && Legal(s, Reserve(p))
    ensures LShape(l) && LReaches(l0, l)
    ensures l == LState(Apply(s, Reserve(p)), 0, Unlocked(s).pStages[p := PBumped], Unlocked(s).cStages,
                        ProducerIn(p))
  {
    hide LReaches, LShape;
    l := LiftReserveEnter(l0, s, p);
    l := LStep(l0, l, PCount(p));
    l := LStep(l0, l, PBump(p));
    assert l.q == Apply(s, Reserve(p));
    assert l.pStages == Unlocked(s).pStages[p := PBumped];
  }

  lemma LiftReserve(l0: LState, s: State, p: nat)
    requires LShape(l0) && SlotsInRange(s) && LReaches(l0, Unlocked(s)) && Legal(s, Reserve(p))
    ensures LReaches(l0, Unlocked(Apply(s, Reserve(p))))
  {
    hide LReaches, LShape;
    var l := LiftReserveBody(l0, s, p);
    l := LStep(l0, l, PLeave(p));
    assert l.pStages == Unlocked(s).pStages;
  }

  lemma LiftClaimEnter(l0: LState, s: State, c: nat) returns (l: LState)
    requires LShape(l0) && SlotsInRange(s) && LReaches(l0, Unlocked(s)) && Legal(s, Claim(c))
    ensures LShape(l) && LReaches(l0, l)
    ensures l == Unlocked(s).(lock := 0, holder := ConsumerIn(c),
                              cStages := Unlocked(s).cStages[c := CSlotted(s.mem.front)])
  {
    hide LReaches, LShape;
    l := LStep(l0, Unlocked(s), CEnter(c));
    l := LStep(l0, l, CSlot(c));
  }

  lemma LiftClaimAdvance(l0: LState, s: State, c: nat) returns (l: LState)
    requires LShape(l0) && SlotsInRange(s) && LReaches(l0, Unlocked(s)) && Legal(s, Claim(c))
    ensures LShape(l) && LReaches(l0, l)
    ensures
      var s' := Apply(s, Claim(c));
      l == LState(s'.(mem := s'.mem.(count := s.mem.count, popped := s.mem.popped)), 0,
                  Unlocked(s).pStages, Unlocked(s).cStages[c := CAdvanced], ConsumerIn(c))
  {
    hide LReaches, LShape;
    l := LiftClaimEnter(l0, s, c);
    l := LStep(l0, l, CAdvance(c));
    assert l.cStages == Unlocked(s).cStages[c := CAdvanced];
  }

  lemma LiftClaimDrop(l0: LState, s: State, c: nat) returns (l: LState)
    requires LShape(l0) && SlotsInRange(s) && LReaches(l0, Unlocked(s)) && Legal(s, Claim(c))
    ensures LShape(l) && LReaches(l0, l)
    ensures
      var s' := Apply(s, Claim(c));
      l == LState(s'.(mem := s'.mem.(popped := s.mem.popped)), 0,
                  Unlocked(s).pStages, Unlocked(s).cStages[c := CDropped], ConsumerIn(c))
  {
    hide LReaches, LShape;
    l := LiftClaimAdvance(l0, s, c);
    l := LStep(l0, l, CDrop(c));
    assert l.cStages == Unlocked(s).cStages[c := CDropped];
  }

  lemma LiftClaimBody(l0: LState, s: State, c: nat) returns (l: LState)
    requires LShape(l0) && SlotsInRange(s) && LReaches(l0, Unlocked(s)) && Legal(s, Claim(c))
    ensures LShape(l) && LReaches(l0, l)
    ensures l == LState(Apply(s, Claim(c)), 0, Unlocked(s).pStages, Unlocked(s).cStages[c := CBumped], ConsumerIn(c))
  {
    hide LReaches, LShape;
    l := LiftClaimDrop(l0, s, c);
    l := LStep(l0, l, CBump(c));
    assert l.cStages == Unlocked(s).cStages[c := CBumped];
  }

  lemma LiftClaim(l0: LState, s: State, c: nat)
    requires LShape(l0) && SlotsInRange(s) && LReaches(l0, Unlocked(s)) && Legal(s, Claim(c))
    ensures LReaches(l0, Unlocked(Apply(s, Claim(c))))
  {
    hide LReaches, LShape;
    var l := LiftClaimBody(l0, s, c);
    l := LStep(l0, l, CLeave(c));
    assert l.cStages == Unlocked(s).cStages;
  }

  lemma LiftStep(l0: LState, s: State, a: Action)
    requires LShape(l0) && SlotsInRange(s) && LReaches(l0, Unlocked(s)) && Legal(s, a)
    ensures LReaches(l0, Unlocked(Apply(s, a)))
  {
    match a
    case Reserve(p) => LiftReserve(l0, s, p);
    case Claim(c) => LiftClaim(l0, s, c);
    case _ =>
      var l := LStep(l0, Unlocked(s), Outside(a));
      assert l == Unlocked(Apply(s, a));
  }

  lemma {:induction false} LiftRun(l0: LState, s: State, run: seq<Action>)
    requires LShape(l0) && SlotsInRange(s) && LReaches(l0, Unlocked(s)) && LegalRun(s, run)
    ensures LReaches(l0, Unlocked(After(s, run)))
    decreases |run|
  {
    if run != [] {
      LiftStep(l0, s, run[0]);
      LiftRun(l0, Apply(s, run[0]), run[1..]);
    }
  }

  // The reduction, both ways: completing the lock holder's bookkeeping maps the states reached with the lock
  // onto exactly the states reached with atomic reservations and claims.
  lemma CriticalSectionReduction(cells: seq<WorkItem>, producers: nat, consumers: nat)
    requires |cells| >= 1
    ensures forall l :: LReachable(cells, producers, consumers, l) ==>
      LInv(l) && Reachable(cells, producers, consumers, Abs(l))
    ensures forall s :: Reachable(cells, producers, consumers, s) ==>
      LReachable(cells, producers, consumers, Unlocked(s))
  {
    var s0 := Init(cells, producers, consumers);
    InitOrderly(cells, producers, consumers);
    var l0 := Unlocked(s0);
    forall l | LReaches(l0, l)
      ensures LInv(l) && Reaches(s0, Abs(l))
    {
      var run :| LLegalRun(l0, run) && LAfter(l0, run) == l;
      ReachesSelf(s0);
      RunRefines(s0, l0, run);
    }
    assert LLegalRun(l0, []) && LAfter(l0, []) == l0;
    forall s | Reaches(s0, s)
      ensures LReaches(l0, Unlocked(s))
    {
      var run :| LegalRun(s0, run) && After(s0, run) == s;
      LiftRun(l0, s0, run);
    }
  }

  lemma HoldersCounted(l: LState)
    requires LInv(l)
    ensures l.lock + |set p | 0 <= p < |l.pStages| && l.pStages[p] != POut|
            + |set c | 0 <= c < |l.cStages| && l.cStages[c] != COut| == 1
  {
    var ps := set p | 0 <= p < |l.pStages| && l.pStages[p] != POut;
    var cs := set c | 0 <= c < |l.cStages| && l.cStages[c] != COut;
    match l.holder
    case Nobody => assert ps == {} && cs == {};
    case ProducerIn(p) => assert ps == {p} && cs == {};
    case ConsumerIn(c) => assert ps == {} && cs == {c};
  }

  // The lock value and the threads between its wait and its post always add up to one.
  lemma LockAndHoldersIsOne(cells: seq<WorkItem>, producers: nat, consumers: nat, l: LState)
    requires |cells| >= 1
    requires LReachable(cells, producers, consumers, l)
    ensures l.lock + |set p | 0 <= p < |l.pStages| && l.pStages[p] != POut|
            + |set c | 0 <= c < |l.cStages| && l.cStages[c] != COut| == 1
  {
    CriticalSectionReduction(cells, producers, consumers);
    HoldersCounted(l);
  }

  lemma SameData(l: LState)
    requires LInv(l) && SlotsInRange(Abs(l)) && SlotSafe(Abs(l)) && Delivered(Abs(l))
    ensures SlotSafe(l.q) && Delivered(l.q)
  {
  }

  lemma SafeWithLock(cells: seq<WorkItem>, producers: nat, consumers: nat, l: LState)
    requires |cells| >= 1 && KeepsOrderByItself(|cells|, producers, consumers)
    requires LReachable(cells, producers, consumers, l)
    ensures SlotSafe(l.q) && Delivered(l.q)
  {
    CriticalSectionReduction(cells, producers, consumers);
    SelfOrderedIsSafe(cells, producers, consumers, Abs(l));
    SameData(l);
  }

  // The lock does not move the boundary: slots and deliveries are right in every state reached with it under
  // the same condition.
  lemma ExactSafetyBoundaryWithLock(cells: seq<WorkItem>, producers: nat, consumers: nat)
    requires |cells| >= 1 && producers >= 1 && consumers >= 1
    ensures (forall l :: LReachable(cells, producers, consumers, l) ==>
               SlotSafe(l.q) && Delivered(l.q))
      <==> KeepsOrderByItself(|cells|, producers, consumers)
  {
    InitOrderly(cells, producers, consumers);
    if KeepsOrderByItself(|cells|, producers, consumers) {
      forall l | LReachable(cells, producers, consumers, l)
        ensures SlotSafe(l.q) && Delivered(l.q)
      {
        SafeWithLock(cells, producers, consumers, l);
      }
    } else {
      CriticalSectionReduction(cells, producers, consumers);
      var s := UnsafeStateExists(cells, producers, consumers);
      assert Unlocked(s).q == s;
    }
  }

  // Whenever the lock is free the raw fields are a state of the atomic system, so all that is said about those
  // states holds of the fields themselves.
  lemma FreeLockIsAtomic(cells: seq<WorkItem>, producers: nat, consumers: nat, l: LState)
    requires |cells| >= 1 && LReachable(cells, producers, consumers, l) && l.lock == 1
    ensures Reachable(cells, producers, consumers, l.q)
  {
    CriticalSectionReduction(cells, producers, consumers);
  }

  lemma CountNearAbs(l: LState)
    requires LInv(l) && Kept(Abs(l))
    ensures 0 <= l.q.mem.count <= l.q.mem.size
  {
    Conservation(Abs(l));
    if l.holder.ConsumerIn? {
      NCMove(Abs(l).consumers, l.holder.c, CIdle);
    }
  }

  // Even in the middle of a critical section the count stays between 0 and the size.
  lemma CountAlwaysInRange(cells: seq<WorkItem>, producers: nat, consumers: nat, l: LState)
    requires |cells| >= 1 && LReachable(cells, producers, consumers, l)
    ensures 0 <= l.q.mem.count <= |cells|
  {
    CriticalSectionReduction(cells, producers, consumers);
    KeptReachable(cells, producers, consumers, Abs(l));
    ReachableShape(cells, producers, consumers, Abs(l));
    CountNearAbs(l);
  }
}
