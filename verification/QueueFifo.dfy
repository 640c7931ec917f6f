/** The queue refines an abstract bounded FIFO: a push takes effect when it reserves, a pop when it claims. */
module QueueFifo {
  import opened Items
  import opened QueueProtocol
  import opened QueueCounts
  import opened QueueOrder

  datatype Event = Enqueue(x: WorkItem) | Dequeue(x: WorkItem)

  // The trace of a bounded FIFO that starts out with the given items.
  predicate FifoTrace(capacity: int, items: seq<WorkItem>, events: seq<Event>)
    decreases |events|
  {
    events == [] ||
    match events[0]
    case Enqueue(x) => |items| < capacity && FifoTrace(capacity, items + [x], events[1..])
    case Dequeue(x) => |items| > 0 && x == items[0] && FifoTrace(capacity, items[1..], events[1..])
  }

  function Dequeued(events: seq<Event>): seq<WorkItem> {
    if events == [] then []
    else (if events[0].Dequeue? then [events[0].x] else []) + Dequeued(events[1..])
  }

  function Enqueued(events: seq<Event>): seq<WorkItem> {
    if events == [] then []
    else (if events[0].Enqueue? then [events[0].x] else []) + Enqueued(events[1..])
  }

  // The items reserved and not yet claimed.
  function Pending(s: State): seq<WorkItem>
    requires 0 <= s.mem.popped <= |s.log|
  {
    s.log[s.mem.popped..]
  }

  // What a step means to the FIFO: every other step is invisible to it.
  function EventOf(s: State, a: Action): seq<Event>
    requires Kept(s) && Legal(s, a)
  {
    if a.Reserve? then [Enqueue(s.producers[a.p].item)]
    else if a.Claim? then
      ClaimFindsItem(s, a.c);
      [Dequeue(s.log[s.mem.popped])]
    else []
  }

  function EventsOf(s: State, run: seq<Action>): seq<Event>
    requires Kept(s) && LegalRun(s, run)
    decreases |run|
  {
    if run == [] then []
    else
      KeptStep(s, run[0]);
      EventOf(s, run[0]) + EventsOf(Apply(s, run[0]), run[1..])
  }

  // A claim always finds an item reserved before it.
  lemma ClaimFindsItem(s: State, c: nat)
    requires Kept(s) && Legal(s, Claim(c))
    ensures 0 <= s.mem.popped < |s.log|
  {
    NCMove(s.consumers, c, CIdle);
  }

  // A reservation always finds room.
  lemma ReserveFindsRoom(s: State, p: nat)
    requires Kept(s) && Legal(s, Reserve(p))
    ensures s.mem.count < s.mem.size
  {
    NPMove(s.producers, p, PIdle);
    Conservation(s);
  }

  lemma ReserveRefinesEnqueue(s: State, p: nat)
    requires Kept(s) && Legal(s, Reserve(p))
    ensures 0 <= s.mem.popped <= |s.log| && |Pending(s)| < s.mem.size
    ensures Pending(Apply(s, Reserve(p))) == Pending(s) + [s.producers[p].item]
  {
    ReserveFindsRoom(s, p);
  }

  lemma ClaimRefinesDequeue(s: State, c: nat)
    requires Kept(s) && Legal(s, Claim(c))
    ensures 0 <= s.mem.popped < |s.log|
    ensures Pending(Apply(s, Claim(c))) == Pending(s)[1..]
  {
    ClaimFindsItem(s, c);
  }

  // One visible step is one FIFO event on the pending items; every other step leaves them alone.
  lemma StepRefinesFifo(s: State, a: Action)
    requires Kept(s) && Legal(s, a)
    ensures Kept(Apply(s, a)) && 0 <= s.mem.popped <= |s.log|
    ensures a.Reserve? ==>
      && EventOf(s, a) == [Enqueue(s.producers[a.p].item)]
      && |Pending(s)| < s.mem.size
      && Pending(Apply(s, a)) == Pending(s) + [s.producers[a.p].item]
    ensures a.Claim? ==>
      && |Pending(s)| > 0
      && EventOf(s, a) == [Dequeue(Pending(s)[0])]
      && Pending(Apply(s, a)) == Pending(s)[1..]
    ensures !a.Reserve? && !a.Claim? ==> EventOf(s, a) == [] && Pending(Apply(s, a)) == Pending(s)
  {
    KeptStep(s, a);
    match a
    case Reserve(p) => ReserveRefinesEnqueue(s, p);
    case Claim(c) => ClaimRefinesDequeue(s, c);
    case _ =>
  }

  // The bookkeeping of every run, in any interleaving, is the trace of a FIFO of capacity `size`.
  lemma {:induction false} RefinesFifo(s: State, run: seq<Action>)
    requires Kept(s) && LegalRun(s, run)
    ensures FifoTrace(s.mem.size, Pending(s), EventsOf(s, run))
    decreases |run|
  {
    if run != [] {
      StepRefinesFifo(s, run[0]);
      var s1 := Apply(s, run[0]);
      RefinesFifo(s1, run[1..]);
      var first, rest := EventOf(s, run[0]), EventsOf(s1, run[1..]);
      if first == [] {
        assert first + rest == rest;
      } else {
        assert (first + rest)[1..] == rest;
      }
    }
  }

  lemma EventsSplit(first: seq<Event>, rest: seq<Event>)
    requires |first| <= 1
    ensures Enqueued(first + rest) == Enqueued(first) + Enqueued(rest)
    ensures Dequeued(first + rest) == Dequeued(first) + Dequeued(rest)
  {
    if first == [] {
      assert first + rest == rest;
    } else {
      assert (first + rest)[1..] == rest;
    }
  }

  lemma HistoryOfStep(s: State, a: Action)
    requires Kept(s) && Legal(s, a)
    ensures 0 <= s.mem.popped <= |s.log| && |EventOf(s, a)| <= 1
    ensures Apply(s, a).log == s.log + Enqueued(EventOf(s, a))
    ensures Apply(s, a).mem.popped == s.mem.popped + |Dequeued(EventOf(s, a))|
  {
    if a.Claim? {
      ClaimFindsItem(s, a.c);
    }
  }

  lemma AppendAssociates(a: seq<WorkItem>, b: seq<WorkItem>, c: seq<WorkItem>)
    ensures (a + b) + c == a + (b + c)
  {
  }

  lemma {:induction false} LogOfRun(s: State, run: seq<Action>)
    requires Kept(s) && LegalRun(s, run)
    ensures After(s, run).log == s.log + Enqueued(EventsOf(s, run))
    decreases |run|
  {
    if run != [] {
      HistoryOfStep(s, run[0]);
      KeptStep(s, run[0]);
      var s1 := Apply(s, run[0]);
      LogOfRun(s1, run[1..]);
      var first, rest := EventOf(s, run[0]), EventsOf(s1, run[1..]);
      EventsSplit(first, rest);
      AppendAssociates(s.log, Enqueued(first), Enqueued(rest));
    } else {
      assert s.log + [] == s.log;
    }
  }

  lemma {:induction false} PoppedOfRun(s: State, run: seq<Action>)
    requires Kept(s) && LegalRun(s, run)
    ensures After(s, run).mem.popped == s.mem.popped + |Dequeued(EventsOf(s, run))|
    decreases |run|
  {
    if run != [] {
      HistoryOfStep(s, run[0]);
      KeptStep(s, run[0]);
      var s1 := Apply(s, run[0]);
      PoppedOfRun(s1, run[1..]);
      EventsSplit(EventOf(s, run[0]), EventsOf(s1, run[1..]));
    }
  }

  // In a FIFO trace the k-th item to leave is the k-th of those that were there or came in.
  lemma {:induction false} FifoKeepsOrder(capacity: int, items: seq<WorkItem>, events: seq<Event>)
    requires FifoTrace(capacity, items, events)
    ensures |Dequeued(events)| <= |items + Enqueued(events)|
    ensures Dequeued(events) == (items + Enqueued(events))[..|Dequeued(events)|]
    decreases |events|
  {
    if events != [] {
      match events[0]
      case Enqueue(x) =>
        FifoKeepsOrder(capacity, items + [x], events[1..]);
        assert items + Enqueued(events) == (items + [x]) + Enqueued(events[1..]);
      case Dequeue(x) =>
        FifoKeepsOrder(capacity, items[1..], events[1..]);
        assert items + Enqueued(events) == [x] + (items[1..] + Enqueued(events[1..]));
    }
  }

  // Conditional refinement. Whatever the number of threads, if the posts come in ticket order then the run is
  // a FIFO trace, each delivery has a ticket of its own, and it carries what the FIFO gave out for that ticket.
  lemma OrderedRunRefinesFifo(cells: seq<WorkItem>, producers: nat, consumers: nat, run: seq<Action>)
    requires |cells| >= 1
    requires LegalRun(Init(cells, producers, consumers), run)
    requires OrderedRun(Init(cells, producers, consumers), run)
    ensures
      var s0, s := Init(cells, producers, consumers), After(Init(cells, producers, consumers), run);
      && Kept(s0)
      && FifoTrace(|cells|, [], EventsOf(s0, run))
      && s.log == Enqueued(EventsOf(s0, run))
      && (forall k :: 0 <= k < |s.receipts| ==>
            && 0 <= s.receipts[k].ticket < |Dequeued(EventsOf(s0, run))|
            && s.receipts[k].value == Dequeued(EventsOf(s0, run))[s.receipts[k].ticket])
      && (forall k, l :: 0 <= k < l < |s.receipts| ==> s.receipts[k].ticket != s.receipts[l].ticket)
  {
    var s0 := Init(cells, producers, consumers);
    InitOrderly(cells, producers, consumers);
    OrderlyRun(s0, run);
    RefinesFifo(s0, run);
    LogOfRun(s0, run);
    PoppedOfRun(s0, run);
    assert Pending(s0) == [];
    FifoKeepsOrder(|cells|, [], EventsOf(s0, run));
    assert [] + Enqueued(EventsOf(s0, run)) == Enqueued(EventsOf(s0, run));
  }

  // Corollary: a ring of one cell with any threads, and one producer with one consumer, refine the FIFO in
  // every run.
  lemma SelfOrderedRunRefinesFifo(cells: seq<WorkItem>, producers: nat, consumers: nat, run: seq<Action>)
    requires |cells| >= 1 && KeepsOrderByItself(|cells|, producers, consumers)
    requires LegalRun(Init(cells, producers, consumers), run)
    ensures
      var s0, s := Init(cells, producers, consumers), After(Init(cells, producers, consumers), run);
      && Kept(s0)
      && FifoTrace(|cells|, [], EventsOf(s0, run))
      && (forall k :: 0 <= k < |s.receipts| ==>
            && 0 <= s.receipts[k].ticket < |Dequeued(EventsOf(s0, run))|
            && s.receipts[k].value == Dequeued(EventsOf(s0, run))[s.receipts[k].ticket])
  {
    InitOrderly(cells, producers, consumers);
    AlwaysOrdered(Init(cells, producers, consumers), run);
    OrderedRunRefinesFifo(cells, producers, consumers, run);
  }
}
