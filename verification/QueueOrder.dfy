/**
 What the data in the ring needs beyond the counts. When every post happens in ticket order the queue is a
 bounded FIFO and no two threads meet in a slot; some shapes of the system keep that order by themselves.
 */
module QueueOrder {
  import opened Items
  import opened QueueMemory
  import opened QueueProtocol
  import opened QueueCounts

  // A step is in turn unless it posts a semaphore ahead of a lower ticket.
  predicate InTurn(s: State, a: Action)
    requires Legal(s, a)
  {
    && (a.Publish? ==> s.producers[a.p].ticket == s.published)
    && (a.Release? ==> s.consumers[a.c].ticket == s.released)
  }

  predicate OrderedRun(s: State, run: seq<Action>)
    requires SlotsInRange(s) && LegalRun(s, run)
    decreases |run|
  {
    run == [] || (InTurn(s, run[0]) && OrderedRun(Apply(s, run[0]), run[1..]))
  }

  // The item of ticket t is still on its way to its cell.
  ghost predicate Unwritten(s: State, t: int) {
    exists p :: 0 <= p < |s.producers| && s.producers[p].PReserved? && s.producers[p].ticket == t
  }

  ghost predicate Stored(s: State, t: int)
    requires SlotsInRange(s) && 0 <= t < |s.log|
  {
    s.tags[SlotOf(t, s.mem.size)] == t && s.mem.cells[SlotOf(t, s.mem.size)] == s.log[t]
  }

  ghost predicate TurnsKept(s: State) {
    && (forall p :: 0 <= p < |s.producers| && s.producers[p].Holds() ==> s.published <= s.producers[p].ticket)
    && (forall c :: 0 <= c < |s.consumers| && s.consumers[c].Holds() ==> s.released <= s.consumers[c].ticket)
  }

  ghost predicate LiveCellsStored(s: State)
    requires SlotsInRange(s)
  {
    forall t :: 0 <= s.released <= t < |s.log| && !Unwritten(s, t) ==> Stored(s, t)
  }

  // Every delivery so far carried the item that was pushed with its ticket.
  ghost predicate Delivered(s: State) {
    forall k :: 0 <= k < |s.receipts| ==>
      0 <= s.receipts[k].ticket < |s.log| && s.receipts[k].value == s.log[s.receipts[k].ticket]
  }

  ghost predicate Orderly(s: State)
    requires SlotsInRange(s)
  {
    TurnsKept(s) && LiveCellsStored(s) && Delivered(s)
  }

  // No slot is held by two threads, and a consumer's slot was written for its own ticket.
  ghost predicate SlotSafe(s: State)
    requires SlotsInRange(s)
  {
    && (forall c :: 0 <= c < |s.consumers| && s.consumers[c].Holds() ==>
          s.tags[s.consumers[c].slot] == s.consumers[c].ticket)
    && (forall p, q :: 0 <= p < q < |s.producers| && s.producers[p].Holds() && s.producers[q].Holds() ==>
          s.producers[p].slot != s.producers[q].slot)
    && (forall c, d :: 0 <= c < d < |s.consumers| && s.consumers[c].Holds() && s.consumers[d].Holds() ==>
          s.consumers[c].slot != s.consumers[d].slot)
    && (forall p, c ::
          (0 <= p < |s.producers| && 0 <= c < |s.consumers| && s.producers[p].Holds() && s.consumers[c].Holds()) ==>
          s.producers[p].slot != s.consumers[c].slot)
  }

  lemma LiveSlotsDiffer(s: State, t: int, u: int)
    requires SlotsInRange(s) && Counted(s)
    requires s.released <= t < |s.log| && s.released <= u < |s.log| && t != u
    ensures SlotOf(t, s.mem.size) != SlotOf(u, s.mem.size)
  {
    if t < u {
      WindowInjective(t, u, s.mem.size);
    } else {
      WindowInjective(u, t, s.mem.size);
    }
  }

  // A consumer in turn holds a ticket that has been written and that nobody has overwritten.
  lemma ClaimedIsStored(s: State, c: nat)
    requires Kept(s) && Orderly(s)
    requires c < |s.consumers| && s.consumers[c].Holds()
    ensures s.released <= s.consumers[c].ticket < s.published
    ensures s.consumers[c].ticket < |s.log| && Stored(s, s.consumers[c].ticket)
  {
    assert s.mem.popped <= s.published <= s.mem.pushed;
    assert !Unwritten(s, s.consumers[c].ticket);
  }

  lemma OrderlyIsSafe(s: State)
    requires Kept(s) && Orderly(s)
    ensures SlotSafe(s)
  {
    forall c | 0 <= c < |s.consumers| && s.consumers[c].Holds()
      ensures s.released <= s.consumers[c].ticket < s.published <= |s.log|
      ensures s.tags[s.consumers[c].slot] == s.consumers[c].ticket
    {
      ClaimedIsStored(s, c);
    }
    forall p, q | 0 <= p < q < |s.producers| && s.producers[p].Holds() && s.producers[q].Holds()
      ensures s.producers[p].slot != s.producers[q].slot
    {
      LiveSlotsDiffer(s, s.producers[p].ticket, s.producers[q].ticket);
    }
    forall c, d | 0 <= c < d < |s.consumers| && s.consumers[c].Holds() && s.consumers[d].Holds()
      ensures s.consumers[c].slot != s.consumers[d].slot
    {
      LiveSlotsDiffer(s, s.consumers[c].ticket, s.consumers[d].ticket);
    }
    forall p, c | 0 <= p < |s.producers| && 0 <= c < |s.consumers|
                  && s.producers[p].Holds() && s.consumers[c].Holds()
      ensures s.producers[p].slot != s.consumers[c].slot
    {
      LiveSlotsDiffer(s, s.producers[p].ticket, s.consumers[c].ticket);
    }
  }

  lemma ProducerTurnsStep(s: State, a: Action, p: nat)
    requires Kept(s) && TurnsKept(s) && Legal(s, a) && InTurn(s, a)
    requires p < |s.producers| && Apply(s, a).producers[p].Holds()
    ensures Apply(s, a).published <= Apply(s, a).producers[p].ticket
  {
    assert s.published <= s.mem.pushed;
  }

  lemma ConsumerTurnsStep(s: State, a: Action, c: nat)
    requires Kept(s) && TurnsKept(s) && Legal(s, a) && InTurn(s, a)
    requires c < |s.consumers| && Apply(s, a).consumers[c].Holds()
    ensures Apply(s, a).released <= Apply(s, a).consumers[c].ticket
  {
    assert s.released <= s.mem.popped;
  }

  lemma TurnsStep(s: State, a: Action)
    requires Kept(s) && TurnsKept(s) && Legal(s, a) && InTurn(s, a)
    ensures TurnsKept(Apply(s, a))
  {
    hide Counted, Ticketed, InTurn, Legal;
    var s' := Apply(s, a);
    forall p | 0 <= p < |s'.producers| && s'.producers[p].Holds()
      ensures s'.published <= s'.producers[p].ticket
    {
      ProducerTurnsStep(s, a, p);
    }
    forall c | 0 <= c < |s'.consumers| && s'.consumers[c].Holds()
      ensures s'.released <= s'.consumers[c].ticket
    {
      ConsumerTurnsStep(s, a, c);
    }
  }

  lemma UnwrittenKept(s: State, a: Action, t: int)
    requires SlotsInRange(s) && Legal(s, a) && Unwritten(s, t)
    requires a.Write? ==> s.producers[a.p].ticket != t
    ensures Unwritten(Apply(s, a), t)
  {
    var q :| 0 <= q < |s.producers| && s.producers[q].PReserved? && s.producers[q].ticket == t;
    assert Apply(s, a).producers[q] == s.producers[q];
  }

  lemma StoredAfterWrite(s: State, p: nat, t: int)
    requires Kept(s) && TurnsKept(s) && LiveCellsStored(s) && Legal(s, Write(p))
    requires s.released <= t < |s.log| && !Unwritten(Apply(s, Write(p)), t)
    ensures Stored(Apply(s, Write(p)), t)
  {
    var own := s.producers[p].ticket;
    if t != own {
      if Unwritten(s, t) {
        UnwrittenKept(s, Write(p), t);
      }
      LiveSlotsDiffer(s, t, own);
    }
  }

  lemma StoredAfterReserve(s: State, p: nat, t: int)
    requires Kept(s) && LiveCellsStored(s) && Legal(s, Reserve(p))
    requires s.released <= t <= |s.log| && !Unwritten(Apply(s, Reserve(p)), t)
    ensures t < |s.log| && Stored(Apply(s, Reserve(p)), t)
  {
    var own := Apply(s, Reserve(p)).producers[p];
    assert own.PReserved? && own.ticket == |s.log|;
    if Unwritten(s, t) {
      UnwrittenKept(s, Reserve(p), t);
    }
  }

  lemma StoredAfterOther(s: State, a: Action, t: int)
    requires Kept(s) && LiveCellsStored(s) && Legal(s, a) && !a.Write? && !a.Reserve?
    requires Apply(s, a).released <= t < |s.log| && !Unwritten(Apply(s, a), t)
    ensures Apply(s, a).log == s.log && Stored(Apply(s, a), t)
  {
    if Unwritten(s, t) {
      UnwrittenKept(s, a, t);
    }
    assert s.released <= Apply(s, a).released;
    assert Stored(s, t);
  }

  lemma LiveCellsStep(s: State, a: Action)
    requires Kept(s) && TurnsKept(s) && LiveCellsStored(s) && Legal(s, a)
    ensures LiveCellsStored(Apply(s, a))
  {
    var s' := Apply(s, a);
    forall t | 0 <= s'.released <= t < |s'.log| && !Unwritten(s', t)
      ensures Stored(s', t)
    {
      if a.Write? {
        StoredAfterWrite(s, a.p, t);
      } else if a.Reserve? {
        StoredAfterReserve(s, a.p, t);
      } else {
        StoredAfterOther(s, a, t);
      }
    }
  }

  lemma DeliveredStep(s: State, a: Action)
    requires Kept(s) && Orderly(s) && Legal(s, a)
    ensures Delivered(Apply(s, a))
  {
    if a.Read? {
      ClaimedIsStored(s, a.c);
    }
  }

  lemma OrderlyStep(s: State, a: Action)
    requires Kept(s) && Orderly(s) && Legal(s, a) && InTurn(s, a)
    ensures Orderly(Apply(s, a))
  {
    TurnsStep(s, a);
    LiveCellsStep(s, a);
    DeliveredStep(s, a);
  }

  lemma {:induction false} OrderlyRun(s: State, run: seq<Action>)
    requires Kept(s) && Orderly(s) && LegalRun(s, run) && OrderedRun(s, run)
    ensures Kept(After(s, run)) && Orderly(After(s, run))
    decreases |run|
  {
    if run != [] {
      KeptStep(s, run[0]);
      OrderlyStep(s, run[0]);
      OrderlyRun(Apply(s, run[0]), run[1..]);
    }
  }

  lemma InitOrderly(cells: seq<WorkItem>, producers: nat, consumers: nat)
    requires |cells| >= 1
    ensures Kept(Init(cells, producers, consumers)) && Orderly(Init(cells, producers, consumers))
  {
    InitCounts(cells, producers, consumers);
  }

  // Safety of the data under the ordering condition, for any number of threads and any size.
  lemma OrderedRunsAreSafe(cells: seq<WorkItem>, producers: nat, consumers: nat, run: seq<Action>)
    requires |cells| >= 1
    requires LegalRun(Init(cells, producers, consumers), run)
    requires OrderedRun(Init(cells, producers, consumers), run)
    ensures SlotSafe(After(Init(cells, producers, consumers), run))
    ensures Delivered(After(Init(cells, producers, consumers), run))
  {
    InitOrderly(cells, producers, consumers);
    OrderlyRun(Init(cells, producers, consumers), run);
    OrderlyIsSafe(After(Init(cells, producers, consumers), run));
  }

  // Systems in which at most one push and at most one pop can be between reservation and post.
  predicate KeepsOrderByItself(size: int, producers: nat, consumers: nat) {
    size == 1 || (producers == 1 && consumers == 1)
  }

  lemma NPBound(ps: seq<Producer>)
    ensures NP(ps, AtPReserved) + NP(ps, AtPWritten) <= |ps|
  {
    var kinds := multiset(PKinds(ps));
    assert multiset{} <= kinds[AtPReserved := 0][AtPWritten := 0];
    assert |kinds[AtPReserved := 0][AtPWritten := 0]| == |ps| - NP(ps, AtPReserved) - NP(ps, AtPWritten);
  }

  lemma NCBound(cs: seq<Consumer>)
    ensures NC(cs, AtCClaimed) + NC(cs, AtCRead) <= |cs|
  {
    var kinds := multiset(CKinds(cs));
    assert multiset{} <= kinds[AtCClaimed := 0][AtCRead := 0];
    assert |kinds[AtCClaimed := 0][AtCRead := 0]| == |cs| - NC(cs, AtCClaimed) - NC(cs, AtCRead);
  }

  lemma AlwaysInTurn(s: State, a: Action)
    requires Kept(s) && TurnsKept(s) && Legal(s, a)
    requires KeepsOrderByItself(s.mem.size, |s.producers|, |s.consumers|)
    ensures InTurn(s, a)
  {
    NPBound(s.producers);
    NCBound(s.consumers);
    Conservation(s);
  }

  lemma {:induction false} AlwaysOrdered(s: State, run: seq<Action>)
    requires Kept(s) && Orderly(s) && LegalRun(s, run)
    requires KeepsOrderByItself(s.mem.size, |s.producers|, |s.consumers|)
    ensures OrderedRun(s, run)
    decreases |run|
  {
    if run != [] {
      AlwaysInTurn(s, run[0]);
      KeptStep(s, run[0]);
      OrderlyStep(s, run[0]);
      AlwaysOrdered(Apply(s, run[0]), run[1..]);
    }
  }
}
