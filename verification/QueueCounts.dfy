/**
 What every run keeps, for any number of threads: where each token is, and which ticket owns which slot.
 Nothing here depends on the order in which the threads get to run.
 */
module QueueCounts {
  import opened Arithmetic
  import opened Items
  import opened QueueMemory
  import opened QueueProtocol

  datatype PKind = AtPIdle | AtPToken | AtPReserved | AtPWritten
  datatype CKind = AtCIdle | AtCToken | AtCClaimed | AtCRead

  function PKindOf(p: Producer): PKind {
    match p
    case PIdle => AtPIdle
    case PToken(_) => AtPToken
    case PReserved(_, _, _) => AtPReserved
    case PWritten(_, _, _) => AtPWritten
  }

  function CKindOf(c: Consumer): CKind {
    match c
    case CIdle => AtCIdle
    case CToken => AtCToken
    case CClaimed(_, _) => AtCClaimed
    case CRead(_, _) => AtCRead
  }

  function PKinds(ps: seq<Producer>): (kinds: seq<PKind>)
    ensures |kinds| == |ps| && forall i :: 0 <= i < |ps| ==> kinds[i] == PKindOf(ps[i])
  {
    seq(|ps|, i requires 0 <= i < |ps| => PKindOf(ps[i]))
  }

  function CKinds(cs: seq<Consumer>): (kinds: seq<CKind>)
    ensures |kinds| == |cs| && forall i :: 0 <= i < |cs| ==> kinds[i] == CKindOf(cs[i])
  {
    seq(|cs|, i requires 0 <= i < |cs| => CKindOf(cs[i]))
  }

  // How many threads are at a given place.
  function NP(ps: seq<Producer>, k: PKind): nat { multiset(PKinds(ps))[k] }

  function NC(cs: seq<Consumer>, k: CKind): nat { multiset(CKinds(cs))[k] }

  function Bit(b: bool): int { if b then 1 else 0 }

  lemma NPMove(ps: seq<Producer>, i: nat, p: Producer)
    requires i < |ps|
    ensures forall k :: NP(ps[i := p], k) == NP(ps, k) - Bit(PKindOf(ps[i]) == k) + Bit(PKindOf(p) == k)
    ensures NP(ps, PKindOf(ps[i])) >= 1
  {
    assert PKinds(ps[i := p]) == PKinds(ps)[i := PKindOf(p)];
    assert PKinds(ps)[i] in multiset(PKinds(ps));
  }

  lemma NCMove(cs: seq<Consumer>, i: nat, c: Consumer)
    requires i < |cs|
    ensures forall k :: NC(cs[i := c], k) == NC(cs, k) - Bit(CKindOf(cs[i]) == k) + Bit(CKindOf(c) == k)
    ensures NC(cs, CKindOf(cs[i])) >= 1
  {
    assert CKinds(cs[i := c]) == CKinds(cs)[i := CKindOf(c)];
    assert CKinds(cs)[i] in multiset(CKinds(cs));
  }

  function ProducersHolding(s: State): nat { NP(s.producers, AtPReserved) + NP(s.producers, AtPWritten) }

  function ConsumersHolding(s: State): nat { NC(s.consumers, AtCClaimed) + NC(s.consumers, AtCRead) }

  ghost predicate Counted(s: State) {
    && s.mem.pushSem >= 0 && s.mem.popSem >= 0
    && s.mem.pushSem + NP(s.producers, AtPToken) == s.mem.size + s.released - s.mem.pushed
    && s.mem.popSem + NC(s.consumers, AtCToken) == s.published - s.mem.popped
    && ProducersHolding(s) == s.mem.pushed - s.published
    && ConsumersHolding(s) == s.mem.popped - s.released
    && |s.receipts| + NC(s.consumers, AtCClaimed) == s.mem.popped
    && s.mem.count == s.mem.pushed - s.mem.popped
    && |s.log| == s.mem.pushed
    && s.released >= 0
  }

  ghost predicate FrontIsNextTicket(s: State)
    requires SlotsInRange(s)
  {
    s.mem.front == SlotOf(s.mem.popped, s.mem.size)
  }

  lemma AllIdleCounts(ps: seq<Producer>, cs: seq<Consumer>)
    requires forall p :: 0 <= p < |ps| ==> ps[p].PIdle?
    requires forall c :: 0 <= c < |cs| ==> cs[c].CIdle?
    ensures forall k :: k != AtPIdle ==> NP(ps, k) == 0
    ensures forall k :: k != AtCIdle ==> NC(cs, k) == 0
  {
    assert forall k :: k != AtPIdle ==> k !in PKinds(ps);
    assert forall k :: k != AtCIdle ==> k !in CKinds(cs);
  }

  lemma InitCounts(cells: seq<WorkItem>, producers: nat, consumers: nat)
    requires |cells| >= 1
    ensures Counted(Init(cells, producers, consumers)) && FrontIsNextTicket(Init(cells, producers, consumers))
  {
    var s := Init(cells, producers, consumers);
    AllIdleCounts(s.producers, s.consumers);
  }

  lemma CountedPushWait(s: State, p: nat, item: WorkItem)
    requires SlotsInRange(s) && Counted(s) && Legal(s, PushWait(p, item))
    ensures Counted(Apply(s, PushWait(p, item)))
  {
    NPMove(s.producers, p, PToken(item));
  }

  lemma CountedReserve(s: State, p: nat)
    requires SlotsInRange(s) && Counted(s) && Legal(s, Reserve(p))
    ensures Counted(Apply(s, Reserve(p)))
  {
    NPMove(s.producers, p, Apply(s, Reserve(p)).producers[p]);
  }

  lemma CountedWrite(s: State, p: nat)
    requires SlotsInRange(s) && Counted(s) && Legal(s, Write(p))
    ensures Counted(Apply(s, Write(p)))
  {
    NPMove(s.producers, p, Apply(s, Write(p)).producers[p]);
  }

  lemma CountedPublish(s: State, p: nat)
    requires SlotsInRange(s) && Counted(s) && Legal(s, Publish(p))
    ensures Counted(Apply(s, Publish(p)))
  {
    NPMove(s.producers, p, PIdle);
  }

  lemma CountedPopWait(s: State, c: nat)
    requires SlotsInRange(s) && Counted(s) && Legal(s, PopWait(c))
    ensures Counted(Apply(s, PopWait(c)))
  {
    NCMove(s.consumers, c, CToken);
  }

  lemma CountedClaim(s: State, c: nat)
    requires SlotsInRange(s) && Counted(s) && Legal(s, Claim(c))
    ensures Counted(Apply(s, Claim(c)))
  {
    NCMove(s.consumers, c, Apply(s, Claim(c)).consumers[c]);
  }

  lemma CountedRead(s: State, c: nat)
    requires SlotsInRange(s) && Counted(s) && Legal(s, Read(c))
    ensures Counted(Apply(s, Read(c)))
  {
    NCMove(s.consumers, c, Apply(s, Read(c)).consumers[c]);
  }

  lemma CountedRelease(s: State, c: nat)
    requires SlotsInRange(s) && Counted(s) && Legal(s, Release(c))
    ensures Counted(Apply(s, Release(c)))
  {
    NCMove(s.consumers, c, CIdle);
  }

  lemma CountedStep(s: State, a: Action)
    requires SlotsInRange(s) && Counted(s) && Legal(s, a)
    ensures Counted(Apply(s, a))
  {
    match a
    case PushWait(p, item) => CountedPushWait(s, p, item);
    case PushTimeout(_) =>
    case Reserve(p) => CountedReserve(s, p);
    case Write(p) => CountedWrite(s, p);
    case Publish(p) => CountedPublish(s, p);
    case PopWait(c) => CountedPopWait(s, c);
    case PopTimeout(_) =>
    case Claim(c) => CountedClaim(s, c);
    case Read(c) => CountedRead(s, c);
    case Release(c) => CountedRelease(s, c);
  }

  lemma FrontStep(s: State, a: Action)
    requires SlotsInRange(s) && FrontIsNextTicket(s) && Legal(s, a)
    ensures FrontIsNextTicket(Apply(s, a))
  {
    if a.Claim? {
      ModAdd(s.mem.popped, 1, s.mem.size);
    }
  }

  // Conservation: the two token laws, and the count they bound.
  lemma Conservation(s: State)
    requires SlotsInRange(s) && Counted(s)
    ensures s.mem.pushSem + NP(s.producers, AtPToken) + s.mem.count + ConsumersHolding(s) == s.mem.size
    ensures s.mem.popSem + NC(s.consumers, AtCToken) + ProducersHolding(s) == s.mem.count
    ensures 0 <= s.mem.count <= s.mem.size
    ensures s.mem.front + s.mem.count <= 2 * s.mem.size - 1
  {
  }

  // Who owns which ticket and slot.
  ghost predicate ProducerTickets(s: State)
    requires SlotsInRange(s)
  {
    && (forall p :: 0 <= p < |s.producers| && s.producers[p].Holds() ==>
          && 0 <= s.producers[p].ticket < |s.log|
          && s.producers[p].slot == SlotOf(s.producers[p].ticket, s.mem.size)
          && s.producers[p].item == s.log[s.producers[p].ticket])
    && (forall p, q :: 0 <= p < q < |s.producers| && s.producers[p].Holds() && s.producers[q].Holds() ==>
          s.producers[p].ticket != s.producers[q].ticket)
  }

  ghost predicate ConsumerTickets(s: State)
    requires SlotsInRange(s)
  {
    && (forall c :: 0 <= c < |s.consumers| && s.consumers[c].Holds() ==>
          && 0 <= s.consumers[c].ticket < s.mem.popped
          && s.consumers[c].slot == SlotOf(s.consumers[c].ticket, s.mem.size))
    && (forall c, d :: 0 <= c < d < |s.consumers| && s.consumers[c].Holds() && s.consumers[d].Holds() ==>
          s.consumers[c].ticket != s.consumers[d].ticket)
  }

  // Every delivery is for a ticket of its own.
  ghost predicate ReceiptTickets(s: State) {
    && (forall k :: 0 <= k < |s.receipts| ==> 0 <= s.receipts[k].ticket < s.mem.popped)
    && (forall k, l :: 0 <= k < l < |s.receipts| ==> s.receipts[k].ticket != s.receipts[l].ticket)
    && (forall k, c :: 0 <= k < |s.receipts| && 0 <= c < |s.consumers| && s.consumers[c].CClaimed? ==>
          s.receipts[k].ticket != s.consumers[c].ticket)
  }

  ghost predicate Ticketed(s: State)
    requires SlotsInRange(s)
  {
    FrontIsNextTicket(s) && ProducerTickets(s) && ConsumerTickets(s) && ReceiptTickets(s)
  }

  // The slot a push computes from front and count is its ticket modulo the size.
  lemma NextSlotIsTicket(s: State)
    requires SlotsInRange(s) && Counted(s) && FrontIsNextTicket(s)
    ensures NextSlot(s.mem) == SlotOf(s.mem.pushed, s.mem.size)
  {
    hide SlotOf, NextSlot;
    NextSlotOf(s.mem, s.mem.popped);
  }

  lemma ProducerTicketsStep(s: State, a: Action)
    requires SlotsInRange(s) && Counted(s) && FrontIsNextTicket(s) && ProducerTickets(s) && Legal(s, a)
    ensures ProducerTickets(Apply(s, a))
  {
    hide SlotOf, NextSlot;
    if a.Reserve? {
      NextSlotIsTicket(s);
    }
  }

  lemma ConsumerTicketsStep(s: State, a: Action)
    requires SlotsInRange(s) && s.mem.popped >= 0 && FrontIsNextTicket(s) && ConsumerTickets(s) && Legal(s, a)
    ensures ConsumerTickets(Apply(s, a))
  {
  }

  lemma ReceiptTicketsStep(s: State, a: Action)
    requires SlotsInRange(s) && ConsumerTickets(s) && ReceiptTickets(s) && Legal(s, a)
    ensures ReceiptTickets(Apply(s, a))
  {
  }

  ghost predicate Kept(s: State) { SlotsInRange(s) && Counted(s) && Ticketed(s) }

  lemma KeptStep(s: State, a: Action)
    requires Kept(s) && Legal(s, a)
    ensures Kept(Apply(s, a))
  {
    CountedStep(s, a);
    FrontStep(s, a);
    ProducerTicketsStep(s, a);
    ConsumerTicketsStep(s, a);
    ReceiptTicketsStep(s, a);
  }

  lemma {:induction false} KeptRun(s: State, run: seq<Action>)
    requires Kept(s) && LegalRun(s, run)
    ensures Kept(After(s, run))
    decreases |run|
  {
    if run != [] {
      KeptStep(s, run[0]);
      KeptRun(Apply(s, run[0]), run[1..]);
    }
  }

  lemma InitKept(cells: seq<WorkItem>, producers: nat, consumers: nat)
    requires |cells| >= 1
    ensures Kept(Init(cells, producers, consumers))
  {
    InitCounts(cells, producers, consumers);
  }

  // Every state of every run, from a fresh queue, for any number of threads.
  lemma KeptReachable(cells: seq<WorkItem>, producers: nat, consumers: nat, s: State)
    requires |cells| >= 1
    requires Reachable(cells, producers, consumers, s)
    ensures Kept(s)
  {
    hide Kept, Init, Apply;
    var s0 := Init(cells, producers, consumers);
    InitKept(cells, producers, consumers);
    var run :| LegalRun(s0, run) && After(s0, run) == s;
    KeptRun(s0, run);
  }

  // Conservation in every reachable state: every push token is free, taken by a producer, spent on an item in
  // the queue, or on its way back with a consumer; every pop token likewise; so the count stays in range.
  lemma ReachableConservation(cells: seq<WorkItem>, producers: nat, consumers: nat, s: State)
    requires |cells| >= 1 && Reachable(cells, producers, consumers, s)
    ensures s.mem.pushSem + NP(s.producers, AtPToken) + s.mem.count + ConsumersHolding(s) == |cells|
    ensures s.mem.popSem + NC(s.consumers, AtCToken) + ProducersHolding(s) == s.mem.count
    ensures 0 <= s.mem.pushSem && 0 <= s.mem.popSem && 0 <= s.mem.count <= |cells|
  {
    KeptReachable(cells, producers, consumers, s);
    ReachableShape(cells, producers, consumers, s);
    Conservation(s);
  }

  // Ticket arithmetic in every reachable state: front and count are the tickets modulo the size, a held slot is
  // its ticket's, the holder's item is the one logged for it, and the slot sum never reaches twice the size.
  lemma ReachableTickets(cells: seq<WorkItem>, producers: nat, consumers: nat, s: State)
    requires |cells| >= 1 && Reachable(cells, producers, consumers, s)
    ensures s.mem.size == |cells| && s.mem.front == s.mem.popped % |cells|
    ensures s.mem.count == s.mem.pushed - s.mem.popped && |s.log| == s.mem.pushed
    ensures s.mem.front + s.mem.count <= 2 * |cells| - 1
    ensures forall p :: 0 <= p < |s.producers| && s.producers[p].Holds() ==>
      && s.producers[p].slot == s.producers[p].ticket % |cells|
      && 0 <= s.producers[p].ticket < s.mem.pushed && s.producers[p].item == s.log[s.producers[p].ticket]
    ensures forall c :: 0 <= c < |s.consumers| && s.consumers[c].Holds() ==>
      s.consumers[c].slot == s.consumers[c].ticket % |cells| && 0 <= s.consumers[c].ticket < s.mem.popped
  {
    KeptReachable(cells, producers, consumers, s);
    ReachableShape(cells, producers, consumers, s);
    Conservation(s);
  }
}
