/** The shared memory of one bounded queue and the effect of each statement group on it. */
module QueueMemory {
  import opened Arithmetic
  import opened Items

  datatype Memory = Memory(
    size: int, front: int, count: int, pushed: int, popped: int,
    pushSem: int, popSem: int, cells: seq<WorkItem>)

  predicate WellFormed(m: Memory) {
    1 <= m.size == |m.cells| && 0 <= m.front < m.size
  }

  // A fresh queue: every push token is available and the cells hold whatever the allocation left there.
  function Create(cells: seq<WorkItem>): Memory {
    Memory(|cells|, 0, 0, 0, 0, |cells|, 0, cells)
  }

  function TakePushToken(m: Memory): Memory { m.(pushSem := m.pushSem - 1) }

  function TakePopToken(m: Memory): Memory { m.(popSem := m.popSem - 1) }

  function PostPush(m: Memory): Memory { m.(pushSem := m.pushSem + 1) }

  function PostPop(m: Memory): Memory { m.(popSem := m.popSem + 1) }

  function NextSlot(m: Memory): (slot: int)
    requires WellFormed(m)
    ensures 0 <= slot < m.size
  {
    (m.front + m.count) % m.size
  }

  // The cell that lies `k` places behind the front of the queue.
  function CellAt(front: int, k: int, size: int): (slot: int)
    requires 1 <= size
    ensures 0 <= slot < size
  {
    (front + k) % size
  }

  // The cell of the ticket-th item to pass through the queue.
  function SlotOf(ticket: int, size: int): (slot: int)
    requires 1 <= size
    ensures 0 <= slot < size
  {
    ticket % size
  }

  function ReserveSlot(m: Memory): Memory { m.(count := m.count + 1, pushed := m.pushed + 1) }

  function ClaimFront(m: Memory): (m': Memory)
    requires WellFormed(m)
    ensures WellFormed(m')
  {
    m.(front := (m.front + 1) % m.size, count := m.count - 1, popped := m.popped + 1)
  }

  function Store(m: Memory, slot: int, item: WorkItem): (m': Memory)
    requires WellFormed(m) && 0 <= slot < m.size
    ensures WellFormed(m')
  {
    m.(cells := m.cells[slot := item])
  }

  // What a complete push and a complete pop do to the memory when no other thread runs in between.
  function WholePush(m: Memory, item: WorkItem): (m': Memory)
    requires WellFormed(m)
    ensures WellFormed(m')
  {
    PostPop(Store(ReserveSlot(TakePushToken(m)), NextSlot(m), item))
  }

  function WholePop(m: Memory): (m': Memory)
    requires WellFormed(m)
    ensures WellFormed(m')
  {
    PostPush(ClaimFront(TakePopToken(m)))
  }

  // No call is in progress: each token is in one of the two semaphores.
  predicate Quiescent(m: Memory) {
    && WellFormed(m)
    && 0 <= m.count <= m.size
    && m.pushSem == m.size - m.count
    && m.popSem == m.count
    && m.count == m.pushed - m.popped
  }

  // The queued items, oldest first.
  function Contents(m: Memory): (items: seq<WorkItem>)
    requires WellFormed(m) && 0 <= m.count
    ensures |items| == m.count
  {
    seq(m.count, k requires 0 <= k < m.count => m.cells[CellAt(m.front, k, m.size)])
  }

  // Tickets closer together than the size of the ring use different cells.
  lemma WindowInjective(a: int, b: int, size: int)
    requires 1 <= size && a < b < a + size
    ensures a % size != b % size
  {
    if a % size == b % size {
      var qa, qb := a / size, b / size;
      assert b - a == size * (qb - qa);
      if qb - qa >= 1 {
        AtLeastOnce(qb - qa, size);
      } else {
        AtLeastOnce(qa - qb + 1, size);
      }
      assert false;
    }
  }

  lemma SlotWraps(ticket: int, size: int)
    requires 1 <= size
    ensures SlotOf(ticket + size, size) == SlotOf(ticket, size)
  {
    ModOnce(ticket, size);
  }

  // The slot after `count` more tickets than the one at the front.
  lemma NextSlotOf(m: Memory, ticket: int)
    requires WellFormed(m) && m.front == SlotOf(ticket, m.size)
    ensures NextSlot(m) == SlotOf(ticket + m.count, m.size)
  {
    ModAdd(ticket, m.count, m.size);
  }

  lemma WholePushAppends(m: Memory, item: WorkItem)
    requires Quiescent(m) && m.pushSem > 0
    ensures Quiescent(WholePush(m, item))
    ensures Contents(WholePush(m, item)) == Contents(m) + [item]
  {
    forall k | 0 <= k < m.count
      ensures CellAt(m.front, k, m.size) != NextSlot(m)
    {
      WindowInjective(m.front + k, m.front + m.count, m.size);
    }
    var after := Contents(WholePush(m, item));
    assert after[m.count] == item;
    assert after[..m.count] == Contents(m);
  }

  lemma CellAtNext(front: int, k: int, size: int)
    requires 1 <= size
    ensures CellAt((front + 1) % size, k, size) == CellAt(front, k + 1, size)
  {
    ModAdd(front + 1, k, size);
  }

  lemma CellAtFront(front: int, size: int)
    requires 0 <= front < size
    ensures CellAt(front, 0, size) == front
  {
  }

  lemma WholePopShifts(m: Memory, k: int)
    requires Quiescent(m) && m.popSem > 0
    requires 0 <= k < m.count - 1
    ensures Contents(WholePop(m))[k] == Contents(m)[k + 1]
  {
    CellAtNext(m.front, k, m.size);
  }

  lemma WholePopRemovesFirst(m: Memory)
    requires Quiescent(m) && m.popSem > 0
    ensures Quiescent(WholePop(m))
    ensures [m.cells[m.front]] + Contents(WholePop(m)) == Contents(m)
  {
    CellAtFront(m.front, m.size);
    var before, after := Contents(m), Contents(WholePop(m));
    assert before[0] == m.cells[m.front];
    forall k | 0 <= k < m.count - 1
      ensures after[k] == before[k + 1]
    {
      WholePopShifts(m, k);
    }
    assert before[1..] == after;
  }
}
