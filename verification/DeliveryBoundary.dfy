/**
 The safety boundary seen from the whole system. A producer pushes what it cooked, with the ids it gives out, and
 keeps an item until it is taken; that restricts which runs of the queue there are, but not by enough: outside the
 two safe shapes the producers and consumers of the program can still be scheduled into each other.
 */
module DeliveryBoundary {
  import opened Items
  import opened QueueProtocol
  import opened QueueOrder
  import opened QueueBoundary
  import opened Delivery

  // A state with all ids erased. The queue never looks at an id, so it runs just the same without them.
  function BareItem(x: WorkItem): WorkItem { x.(id := 0) }

  function BareItems(xs: seq<WorkItem>): (bare: seq<WorkItem>)
    ensures |bare| == |xs| && forall i :: 0 <= i < |xs| ==> bare[i] == BareItem(xs[i])
  {
    seq(|xs|, i requires 0 <= i < |xs| => BareItem(xs[i]))
  }

  function BareProducer(p: Producer): Producer {
    match p
    case PIdle => p
    case PToken(item) => PToken(BareItem(item))
    case PReserved(item, slot, ticket) => PReserved(BareItem(item), slot, ticket)
    case PWritten(item, slot, ticket) => PWritten(BareItem(item), slot, ticket)
  }

  function BareProducers(ps: seq<Producer>): (bare: seq<Producer>)
    ensures |bare| == |ps| && forall i :: 0 <= i < |ps| ==> bare[i] == BareProducer(ps[i])
  {
    seq(|ps|, i requires 0 <= i < |ps| => BareProducer(ps[i]))
  }

  function BareReceipts(rs: seq<Receipt>): (bare: seq<Receipt>)
    ensures |bare| == |rs|
    ensures forall i :: 0 <= i < |rs| ==> bare[i] == Receipt(rs[i].ticket, BareItem(rs[i].value))
  {
    seq(|rs|, i requires 0 <= i < |rs| => Receipt(rs[i].ticket, BareItem(rs[i].value)))
  }

  function Bare(s: State): State {
    s.(mem := s.mem.(cells := BareItems(s.mem.cells)), producers := BareProducers(s.producers),
    log := BareItems(s.log), receipts := BareReceipts(s.receipts))
  }

  function BareAction(a: Action): Action {
    if a.PushWait? then a.(item := BareItem(a.item)) else a
  }

  lemma BareLegal(s: State, a: Action)
    requires SlotsInRange(s)
    ensures SlotsInRange(Bare(s)) && |Bare(s).producers| == |s.producers|
    ensures Legal(s, a) <==> Legal(Bare(s), BareAction(a))
  {
  }

  lemma BarePushStep(s: State, a: Action)
    requires SlotsInRange(s) && Legal(s, a) && a.OfProducer()
    requires SlotsInRange(Bare(s)) && Legal(Bare(s), BareAction(a))
    ensures Bare(Apply(s, a)) == Apply(Bare(s), BareAction(a))
  {
    var s', b' := Apply(s, a), Apply(Bare(s), BareAction(a));
    assert BareProducers(s'.producers) == b'.producers;
    assert BareItems(s'.log) == b'.log;
    assert BareItems(s'.mem.cells) == b'.mem.cells;
  }

  lemma BarePopStep(s: State, a: Action)
    requires SlotsInRange(s) && Legal(s, a) && !a.OfProducer()
    requires SlotsInRange(Bare(s)) && Legal(Bare(s), BareAction(a))
    ensures Bare(Apply(s, a)) == Apply(Bare(s), BareAction(a))
  {
    var s', b' := Apply(s, a), Apply(Bare(s), BareAction(a));
    assert BareReceipts(s'.receipts) == b'.receipts;
  }

  // Erasing ids commutes with every step.
  lemma BareStep(s: State, a: Action)
    requires SlotsInRange(s) && Legal(s, a)
    ensures SlotsInRange(Bare(s)) && Legal(Bare(s), BareAction(a))
    ensures Bare(Apply(s, a)) == Apply(Bare(s), BareAction(a))
  {
    hide Bare, Apply, Legal;
    BareLegal(s, a);
    if a.OfProducer() {
      BarePushStep(s, a);
    } else {
      BarePopStep(s, a);
    }
  }

  // Two states that differ in ids only take the same steps.
  lemma TwinStep(s: State, t: State, a: Action, b: Action)
    requires SlotsInRange(s) && SlotsInRange(t) && Bare(s) == Bare(t)
    requires Legal(s, a) && BareAction(a) == BareAction(b)
    ensures |t.producers| == |s.producers| && Legal(t, b) && Bare(Apply(t, b)) == Bare(Apply(s, a))
  {
    hide Bare, Apply, Legal, BareAction;
    BareLegal(s, a);
    BareStep(s, a);
    BareLegal(t, b);
    BareStep(t, b);
  }

  lemma TwinsAlikeSafe(s: State, t: State)
    requires SlotsInRange(s) && SlotsInRange(t) && Bare(s) == Bare(t)
    ensures SlotSafe(s) <==> SlotSafe(t)
  {
    BareSafe(s);
    BareSafe(t);
  }

  lemma BareSafe(s: State)
    requires SlotsInRange(s)
    ensures SlotsInRange(Bare(s)) && (SlotSafe(s) <==> SlotSafe(Bare(s)))
  {
    var b := Bare(s);
    assert forall p :: 0 <= p < |s.producers| ==> b.producers[p].Holds() == s.producers[p].Holds();
    assert forall p :: 0 <= p < |s.producers| && s.producers[p].Holds() ==> b.producers[p].slot == s.producers[p].slot;
  }

  lemma TwinsAlikeDelivered(s: State, t: State)
    requires Bare(s) == Bare(t)
    ensures DataDelivered(s) <==> DataDelivered(t)
  {
    BareDelivered(s);
    BareDelivered(t);
  }

  lemma BareDelivered(s: State)
    ensures DataDelivered(s) <==> DataDelivered(Bare(s))
  {
  }

  // Runs of the whole system.
  ghost predicate SystemReaches(s: System, s': System)
    requires Matched(s)
    ensures SystemReaches(s, s') ==> Matched(s')
  {
    exists run :: AllowedRun(s, run) && Final(s, run) == s'
  }

  lemma {:induction false} ExtendSystemRun(s: System, run: seq<SystemAction>, sa: SystemAction)
    requires Matched(s) && AllowedRun(s, run) && Allowed(Final(s, run), sa)
    ensures AllowedRun(s, run + [sa]) && Final(s, run + [sa]) == Next(Final(s, run), sa)
    decreases |run|
  {
    if run == [] {
      assert [sa][1..] == [];
    } else {
      ExtendSystemRun(Next(s, run[0]), run[1..], sa);
      assert (run + [sa])[1..] == run[1..] + [sa];
    }
  }

  lemma SystemStep(s0: System, s: System, sa: SystemAction) returns (s': System)
    requires Matched(s0) && Matched(s) && SystemReaches(s0, s) && Allowed(s, sa)
    ensures s' == Next(s, sa) && SystemReaches(s0, s')
  {
    var run :| AllowedRun(s0, run) && Final(s0, run) == s;
    ExtendSystemRun(s0, run, sa);
    s' := Next(s, sa);
  }

  // A system that has come as far as the queue state s, up to ids, and in which no idle producer keeps an item.
  ghost predicate CaughtUp(t: System, s: State) {
    && Matched(t) && SlotsInRange(s) && Bare(t.q) == Bare(s)
    && (forall p :: 0 <= p < |t.clients| && t.q.producers[p].PIdle? ==> !t.clients[p].valid)
  }

  // Before a push the producer cooks an item with the data the queue's run pushes there.
  lemma FollowPush(s0: System, t: System, s: State, p: nat, item: WorkItem) returns (t': System)
    requires Matched(s0) && SystemReaches(s0, t) && CaughtUp(t, s) && Legal(s, PushWait(p, item))
    ensures SystemReaches(s0, t') && CaughtUp(t', Apply(s, PushWait(p, item)))
  {
    hide SystemReaches, Bare, Apply;
    TwinStep(s, t.q, PushWait(p, item), PushWait(p, item));
    var cooked := WorkItem(t.clients[p].next, item.data);
    TwinStep(s, t.q, PushWait(p, item), PushWait(p, cooked));
    t' := SystemStep(s0, t, Cook(p, item.data));
    assert t'.q == t.q && t'.clients[p].saved == cooked;
    t' := SystemStep(s0, t', Queue(PushWait(p, cooked)));
    IdleAfter(t.q, PushWait(p, cooked));
  }

  // Only a publishing producer becomes idle.
  lemma IdleAfter(q: State, a: Action)
    requires SlotsInRange(q) && Legal(q, a)
    ensures forall p :: 0 <= p < |q.producers| && Apply(q, a).producers[p].PIdle? ==>
              if a.Publish? && a.p == p then true else q.producers[p].PIdle? && !(a.PushWait? && a.p == p)
  {
  }

  lemma FollowOther(s0: System, t: System, s: State, a: Action) returns (t': System)
    requires Matched(s0) && SystemReaches(s0, t) && CaughtUp(t, s)
    requires Legal(s, a) && !a.PushWait? && !a.IsTimeout()
    ensures SystemReaches(s0, t') && CaughtUp(t', Apply(s, a))
  {
    hide SystemReaches, Bare, Apply;
    TwinStep(s, t.q, a, a);
    t' := SystemStep(s0, t, Queue(a));
    IdleAfter(t.q, a);
  }

  lemma Follow(s0: System, t: System, s: State, a: Action) returns (t': System)
    requires Matched(s0) && SystemReaches(s0, t) && CaughtUp(t, s) && Legal(s, a)
    ensures SystemReaches(s0, t') && CaughtUp(t', Apply(s, a))
  {
    hide SystemReaches, CaughtUp;
    if a.PushWait? {
      t' := FollowPush(s0, t, s, a.p, a.item);
    } else if a.IsTimeout() {
      t' := t;
    } else {
      t' := FollowOther(s0, t, s, a);
    }
  }

  // Every run of the queue, whatever it pushes, is a run of cooking and retrying producers, up to ids.
  lemma {:induction false} FollowRun(s0: System, t: System, s: State, run: seq<Action>) returns (t': System)
    requires Matched(s0) && SystemReaches(s0, t) && CaughtUp(t, s) && LegalRun(s, run)
    ensures SystemReaches(s0, t') && CaughtUp(t', After(s, run))
    decreases |run|
  {
    hide SystemReaches, Apply, Legal, Bare;
    if run == [] {
      t' := t;
    } else {
      t' := Follow(s0, t, s, run[0]);
      t' := FollowRun(s0, t', Apply(s, run[0]), run[1..]);
    }
  }

  // Any state of the queue has its double among the states of the whole system.
  lemma SystemFollows(cells: seq<WorkItem>, ids: seq<nat>, consumers: nat, junk: WorkItem, s: State)
    returns (t: System)
    requires |cells| >= 1 && Reachable(cells, |ids|, consumers, s)
    ensures SystemReaches(Start(cells, ids, consumers, junk), t)
    ensures SlotsInRange(s) && Bare(t.q) == Bare(s)
  {
    hide Bare;
    var q0 := Init(cells, |ids|, consumers);
    var run :| LegalRun(q0, run) && After(q0, run) == s;
    var s0 := Start(cells, ids, consumers, junk);
    assert AllowedRun(s0, []) && Final(s0, []) == s0;
    t := FollowRun(s0, s0, q0, run);
  }

  lemma UnsafeSystemRun(cells: seq<WorkItem>, ids: seq<nat>, consumers: nat, junk: WorkItem)
    returns (run: seq<SystemAction>)
    requires |cells| >= 1 && |ids| >= 1 && consumers >= 1
    requires !KeepsOrderByItself(|cells|, |ids|, consumers)
    ensures AllowedRun(Start(cells, ids, consumers, junk), run)
    ensures !SlotSafe(Final(Start(cells, ids, consumers, junk), run).q)
  {
    hide Bare, SlotSafe, Reachable;
    var s := UnsafeStateExists(cells, |ids|, consumers);
    var t := SystemFollows(cells, ids, consumers, junk, s);
    TwinsAlikeSafe(s, t.q);
    run :| AllowedRun(Start(cells, ids, consumers, junk), run) && Final(Start(cells, ids, consumers, junk), run) == t;
  }

  // A run of cooking and retrying producers in which a consumer receives other data than its ticket's.
  lemma WrongSystemRun(cells: seq<WorkItem>, ids: seq<nat>, consumers: nat, junk: WorkItem)
    returns (run: seq<SystemAction>)
    requires |cells| >= 1 && |ids| >= 1 && consumers >= 1
    requires !KeepsOrderByItself(|cells|, |ids|, consumers)
    ensures AllowedRun(Start(cells, ids, consumers, junk), run)
    ensures !DataDelivered(Final(Start(cells, ids, consumers, junk), run).q)
  {
    hide Bare, DataDelivered, Delivered, Reachable;
    var s := WrongDeliveryExists(cells, |ids|, consumers);
    var t := SystemFollows(cells, ids, consumers, junk, s);
    TwinsAlikeDelivered(s, t.q);
    run :| AllowedRun(Start(cells, ids, consumers, junk), run) && Final(Start(cells, ids, consumers, junk), run) == t;
  }

  lemma SelfOrderedSystemIsSafe(
    cells: seq<WorkItem>, ids: seq<nat>, consumers: nat, junk: WorkItem, run: seq<SystemAction>)
    requires |cells| >= 1 && KeepsOrderByItself(|cells|, |ids|, consumers)
    requires AllowedRun(Start(cells, ids, consumers, junk), run)
    ensures
      var q := Final(Start(cells, ids, consumers, junk), run).q;
      SlotSafe(q) && Delivered(q) && DataDelivered(q)
  {
    var s0 := Start(cells, ids, consumers, junk);
    StartKept(cells, ids, consumers, junk);
    SelfOrderedSystemRun(s0, run);
    SystemRun(s0, run);
    OrderlyIsSafe(Final(s0, run).q);
  }

  // Every delivery is, id and data, what the producer of its ticket cooked for it.
  ghost predicate CookedDelivered(ids: seq<nat>, run: seq<SystemAction>, s: System) {
    forall k :: 0 <= k < |s.q.receipts| ==>
      IsCooked(ids, run, s.origin, s.q.receipts[k].ticket, s.q.receipts[k].value)
  }

  // That is the same as being what was pushed, since producers push what they cooked.
  lemma CookedIffLogged(
    cells: seq<WorkItem>, ids: seq<nat>, consumers: nat, junk: WorkItem, run: seq<SystemAction>)
    requires |cells| >= 1 && AllowedRun(Start(cells, ids, consumers, junk), run)
    ensures
      var s := Final(Start(cells, ids, consumers, junk), run);
      CookedDelivered(ids, run, s) <==> Delivered(s.q)
  {
    hide Waiting, Cooks, ItemAt;
    NothingGetsLost(cells, ids, consumers, junk, run);
  }

  // The exact boundary for the whole system: in all runs of its producers and consumers the slots are safe, and in
  // all runs every delivery is the item that was cooked for its ticket, precisely in the two shapes.
  lemma ExactDeliveryBoundary(cells: seq<WorkItem>, ids: seq<nat>, consumers: nat, junk: WorkItem)
    requires |cells| >= 1 && |ids| >= 1 && consumers >= 1
    ensures (forall run :: AllowedRun(Start(cells, ids, consumers, junk), run) ==>
               SlotSafe(Final(Start(cells, ids, consumers, junk), run).q))
      <==> KeepsOrderByItself(|cells|, |ids|, consumers)
    ensures (forall run :: AllowedRun(Start(cells, ids, consumers, junk), run) ==>
               CookedDelivered(ids, run, Final(Start(cells, ids, consumers, junk), run)))
      <==> KeepsOrderByItself(|cells|, |ids|, consumers)
  {
    hide SlotSafe, CookedDelivered;
    var s0 := Start(cells, ids, consumers, junk);
    if KeepsOrderByItself(|cells|, |ids|, consumers) {
      forall run | AllowedRun(s0, run)
        ensures SlotSafe(Final(s0, run).q) && CookedDelivered(ids, run, Final(s0, run))
      {
        CookedIffLogged(cells, ids, consumers, junk, run);
        SelfOrderedSystemIsSafe(cells, ids, consumers, junk, run);
      }
    } else {
      var unsafe := UnsafeSystemRun(cells, ids, consumers, junk);
      var wrong := WrongSystemRun(cells, ids, consumers, junk);
      CookedIffLogged(cells, ids, consumers, junk, wrong);
    }
  }
}
