/**
 Exactly which systems are safe. Outside the two shapes that keep their posts in order by themselves, runs
 are built here, for every size, in which threads meet in a slot and a pop delivers the wrong item.
 */
module QueueBoundary {
  import opened Arithmetic
  import opened Items
  import opened QueueMemory
  import opened QueueProtocol
  import opened QueueOrder

  lemma Step(s0: State, s: State, a: Action) returns (s': State)
    requires SlotsInRange(s0) && SlotsInRange(s) && Reaches(s0, s) && Legal(s, a)
    ensures s' == Apply(s, a) && Reaches(s0, s')
  {
    ReachesNext(s0, s, a);
    s' := Apply(s, a);
  }

  lemma FirstSlots(size: int)
    requires size >= 2
    ensures 0 % size == 0 && 1 % size == 1
  {
  }

  lemma OneReservation(cells: seq<WorkItem>, producers: nat, consumers: nat, x: WorkItem)
    returns (s: State)
    requires |cells| >= 2 && producers >= 2
    ensures Reachable(cells, producers, consumers, s)
    ensures SlotsInRange(s) && |s.producers| == producers && |s.consumers| == consumers
    ensures s.producers[0] == PReserved(x, 0, 0) && s.producers[1].PIdle?
    ensures forall c :: 0 <= c < consumers ==> s.consumers[c].CIdle?
    ensures s.mem == Memory(|cells|, 0, 1, 1, 0, |cells| - 1, 0, cells)
    ensures s.log == [x] && s.tags[0] == -1 && s.receipts == []
  {
    hide Reaches;
    FirstSlots(|cells|);
    var s0 := Init(cells, producers, consumers);
    ReachesSelf(s0);
    s := Step(s0, s0, PushWait(0, x));
    s := Step(s0, s, Reserve(0));
  }

  // Two producers reserve tickets 0 and 1.
  lemma TwoReservations(cells: seq<WorkItem>, producers: nat, consumers: nat, x: WorkItem, y: WorkItem)
    returns (s: State)
    requires |cells| >= 2 && producers >= 2
    ensures Reachable(cells, producers, consumers, s)
    ensures SlotsInRange(s) && |s.producers| == producers && |s.consumers| == consumers
    ensures s.producers[0] == PReserved(x, 0, 0) && s.producers[1] == PReserved(y, 1, 1)
    ensures forall c :: 0 <= c < consumers ==> s.consumers[c].CIdle?
    ensures s.mem == Memory(|cells|, 0, 2, 2, 0, |cells| - 2, 0, cells)
    ensures s.log == [x, y] && s.tags[0] == -1 && s.receipts == []
  {
    hide Reaches;
    FirstSlots(|cells|);
    var s0 := Init(cells, producers, consumers);
    s := OneReservation(cells, producers, consumers, x);
    s := Step(s0, s, PushWait(1, y));
    s := Step(s0, s, Reserve(1));
  }

  // The second producer publishes first, and a consumer claims the cell the first has not written.
  lemma ClaimBeforeWrite(cells: seq<WorkItem>, producers: nat, consumers: nat, x: WorkItem, y: WorkItem)
    returns (s: State)
    requires |cells| >= 2 && producers >= 2 && consumers >= 1
    ensures Reachable(cells, producers, consumers, s)
    ensures SlotsInRange(s) && |s.consumers| == consumers
    ensures s.consumers[0] == CClaimed(0, 0) && s.tags[0] == -1
    ensures s.mem.cells[0] == cells[0] && s.log == [x, y] && s.receipts == []
  {
    hide Reaches;
    var s0 := Init(cells, producers, consumers);
    s := TwoReservations(cells, producers, consumers, x, y);
    s := Step(s0, s, Write(1));
    s := Step(s0, s, Publish(1));
    assert s.mem.popSem == 1 && s.mem.cells[0] == cells[0];
    s := Step(s0, s, PopWait(0));
    s := Step(s0, s, Claim(0));
  }

  // A state in which `n` complete pushes of the same item have been made and nothing else.
  ghost predicate Filled(s: State, n: nat, x: WorkItem) {
    && SlotsInRange(s)
    && (forall p :: 0 <= p < |s.producers| ==> s.producers[p].PIdle?)
    && (forall c :: 0 <= c < |s.consumers| ==> s.consumers[c].CIdle?)
    && s.mem.front == 0 && s.mem.popped == 0 && s.mem.count == n && s.mem.pushed == n
    && s.mem.popSem == n && s.mem.pushSem == s.mem.size - n
    && |s.log| == n && (forall k :: 0 <= k < n ==> s.log[k] == x)
    && s.receipts == []
  }

  lemma PushOnce(s0: State, s: State, n: nat, x: WorkItem) returns (s': State)
    requires SlotsInRange(s0) && Filled(s, n, x) && Reaches(s0, s)
    requires n < s.mem.size && |s.producers| >= 1
    ensures Filled(s', n + 1, x) && Reaches(s0, s')
    ensures s'.mem.size == s.mem.size
    ensures |s'.producers| == |s.producers| && |s'.consumers| == |s.consumers|
  {
    hide Reaches;
    s' := Step(s0, s, PushWait(0, x));
    s' := Step(s0, s', Reserve(0));
    assert s'.mem.count == n + 1 && s'.log == s.log + [x];
    s' := Step(s0, s', Write(0));
    s' := Step(s0, s', Publish(0));
  }

  lemma {:induction false} PushMany(cells: seq<WorkItem>, producers: nat, consumers: nat, n: nat, x: WorkItem)
    returns (s: State)
    requires 1 <= |cells| && n <= |cells| && producers >= 1
    ensures Reachable(cells, producers, consumers, s)
    ensures Filled(s, n, x) && s.mem.size == |cells|
    ensures |s.producers| == producers && |s.consumers| == consumers
    decreases n
  {
    var s0 := Init(cells, producers, consumers);
    if n == 0 {
      s := s0;
      ReachesSelf(s0);
    } else {
      s := PushMany(cells, producers, consumers, n - 1, x);
      s := PushOnce(s0, s, n - 1, x);
    }
  }

  // One consumer claims ticket 0 of a full ring.
  lemma FirstClaim(cells: seq<WorkItem>, producers: nat, consumers: nat, x: WorkItem)
    returns (s: State)
    requires |cells| >= 2 && producers >= 1 && consumers >= 2
    ensures Reachable(cells, producers, consumers, s)
    ensures SlotsInRange(s) && |s.producers| == producers && |s.consumers| == consumers
    ensures s.mem == Memory(|cells|, 1, |cells| - 1, |cells|, 1, 0, |cells| - 1, s.mem.cells)
    ensures s.producers[0].PIdle? && s.consumers[0] == CClaimed(0, 0) && s.consumers[1].CIdle?
    ensures |s.log| == |cells| && s.log[0] == x && s.receipts == []
  {
    hide Reaches;
    FirstSlots(|cells|);
    var s0 := Init(cells, producers, consumers);
    s := PushMany(cells, producers, consumers, |cells|, x);
    s := Step(s0, s, PopWait(0));
    s := Step(s0, s, Claim(0));
  }

  // Two consumers hold tickets 0 and 1.
  lemma TwoClaims(cells: seq<WorkItem>, producers: nat, consumers: nat, x: WorkItem)
    returns (s: State)
    requires |cells| >= 2 && producers >= 1 && consumers >= 2
    ensures Reachable(cells, producers, consumers, s)
    ensures SlotsInRange(s) && |s.producers| == producers && |s.consumers| == consumers
    ensures s.mem == Memory(|cells|, 2 % |cells|, |cells| - 2, |cells|, 2, 0, |cells| - 2, s.mem.cells)
    ensures s.producers[0].PIdle? && s.consumers[0] == CClaimed(0, 0) && s.consumers[1].CClaimed?
    ensures |s.log| == |cells| && s.log[0] == x && s.receipts == []
  {
    hide Reaches;
    var s0 := Init(cells, producers, consumers);
    s := FirstClaim(cells, producers, consumers, x);
    s := Step(s0, s, PopWait(1));
    s := Step(s0, s, Claim(1));
  }

  // The second consumer finishes first.
  lemma ReleaseOutOfTurn(cells: seq<WorkItem>, producers: nat, consumers: nat, x: WorkItem)
    returns (s: State)
    requires |cells| >= 2 && producers >= 1 && consumers >= 2
    ensures Reachable(cells, producers, consumers, s)
    ensures SlotsInRange(s) && |s.producers| == producers && |s.consumers| == consumers
    ensures s.mem.size == |cells| && s.mem.pushSem == 1
    ensures s.mem.front == 2 % |cells| && s.mem.count == |cells| - 2 && s.mem.pushed == |cells|
    ensures s.producers[0].PIdle? && s.consumers[0] == CClaimed(0, 0)
    ensures |s.log| == |cells| && s.log[0] == x && |s.receipts| == 1
  {
    hide Reaches;
    var s0 := Init(cells, producers, consumers);
    s := TwoClaims(cells, producers, consumers, x);
    s := Step(s0, s, Read(1));
    s := Step(s0, s, Release(1));
  }

  lemma WrapsToFirst(size: int)
    requires size >= 2
    ensures (2 % size + (size - 2)) % size == 0
  {
    ModAdd(2, size - 2, size);
  }

  // The next push wraps round into the slot the first consumer still holds.
  lemma ReserveHeldSlot(cells: seq<WorkItem>, producers: nat, consumers: nat, x: WorkItem, y: WorkItem)
    returns (s: State)
    requires |cells| >= 2 && producers >= 1 && consumers >= 2
    ensures Reachable(cells, producers, consumers, s)
    ensures SlotsInRange(s) && |s.producers| == producers && |s.consumers| == consumers
    ensures s.producers[0] == PReserved(y, 0, |cells|) && s.consumers[0] == CClaimed(0, 0)
    ensures |s.log| > 0 && s.log[0] == x && |s.receipts| == 1
  {
    hide Reaches;
    var s0 := Init(cells, producers, consumers);
    s := ReleaseOutOfTurn(cells, producers, consumers, x);
    WrapsToFirst(|cells|);
    s := Step(s0, s, PushWait(0, y));
    s := Step(s0, s, Reserve(0));
  }

  lemma UnsafeStateExists(cells: seq<WorkItem>, producers: nat, consumers: nat)
    returns (s: State)
    requires |cells| >= 1 && producers >= 1 && consumers >= 1
    requires !KeepsOrderByItself(|cells|, producers, consumers)
    ensures Reachable(cells, producers, consumers, s)
    ensures !SlotSafe(s)
  {
    if producers >= 2 {
      s := ClaimBeforeWrite(cells, producers, consumers, cells[0], cells[0]);
    } else {
      s := ReserveHeldSlot(cells, producers, consumers, cells[0], cells[0]);
    }
  }

  // Every delivery so far had the data that was pushed with its ticket, whatever its id.
  ghost predicate DataDelivered(s: State) {
    forall k :: 0 <= k < |s.receipts| ==>
      && 0 <= s.receipts[k].ticket < |s.log|
      && s.receipts[k].value.data == s.log[s.receipts[k].ticket].data
  }

  // A buffer a producer can fill that differs from the given one: a single letter, or none.
  function Unlike(data: seq<char>): (other: seq<char>)
    ensures other != data && |other| == MAX_WORK_ITEM_LEN
  {
    var blank := seq(MAX_WORK_ITEM_LEN, _ => '\0');
    if |data| > 0 && data[0] == 'a' then blank else blank[0 := 'a']
  }

  lemma WrongDeliveryExists(cells: seq<WorkItem>, producers: nat, consumers: nat)
    returns (s: State)
    requires |cells| >= 1 && producers >= 1 && consumers >= 1
    requires !KeepsOrderByItself(|cells|, producers, consumers)
    ensures Reachable(cells, producers, consumers, s)
    ensures !Delivered(s) && !DataDelivered(s)
  {
    hide Reaches;
    var s0 := Init(cells, producers, consumers);
    var x := WorkItem(0, Unlike(cells[0].data));
    if producers >= 2 {
      s := ClaimBeforeWrite(cells, producers, consumers, x, x);
      s := Step(s0, s, Read(0));
      assert s.receipts[0] == Receipt(0, cells[0]);
    } else {
      var y := WorkItem(0, Unlike(x.data));
      s := ReserveHeldSlot(cells, producers, consumers, x, y);
      s := Step(s0, s, Write(0));
      s := Step(s0, s, Read(0));
      assert s.receipts[1] == Receipt(0, y);
    }
  }

  lemma SelfOrderedIsSafe(cells: seq<WorkItem>, producers: nat, consumers: nat, s: State)
    requires |cells| >= 1 && KeepsOrderByItself(|cells|, producers, consumers)
    requires Reachable(cells, producers, consumers, s)
    ensures SlotSafe(s) && Delivered(s)
  {
    var s0 := Init(cells, producers, consumers);
    var run :| LegalRun(s0, run) && After(s0, run) == s;
    InitOrderly(cells, producers, consumers);
    AlwaysOrdered(s0, run);
    OrderedRunsAreSafe(cells, producers, consumers, run);
  }

  // The exact boundary: slots are safe in all reachable states, and all deliveries are right in all reachable
  // states, precisely when the ring has one cell or there are one producer and one consumer.
  lemma ExactSafetyBoundary(cells: seq<WorkItem>, producers: nat, consumers: nat)
    requires |cells| >= 1 && producers >= 1 && consumers >= 1
    ensures (forall s :: Reachable(cells, producers, consumers, s) ==> SlotSafe(s))
      <==> KeepsOrderByItself(|cells|, producers, consumers)
    ensures (forall s :: Reachable(cells, producers, consumers, s) ==> Delivered(s))
      <==> KeepsOrderByItself(|cells|, producers, consumers)
  {
    InitOrderly(cells, producers, consumers);
    if KeepsOrderByItself(|cells|, producers, consumers) {
      forall s | Reachable(cells, producers, consumers, s)
        ensures SlotSafe(s) && Delivered(s)
      {
        SelfOrderedIsSafe(cells, producers, consumers, s);
      }
    } else {
      var s := UnsafeStateExists(cells, producers, consumers);
      var t := WrongDeliveryExists(cells, producers, consumers);
    }
  }
}
