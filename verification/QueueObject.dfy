/**
 The queue as an object with its fields and array. Each statement group of `push` and `pop` is a method proved
 against the memory function the transition system uses for it; `Push` and `Pop` string them together.
 */
module QueueObject {
  import opened Items
  import opened QueueMemory
  import opened QueueProtocol

  class Queue {
    const size: nat
    const cells: array<WorkItem>
    var front: int
    var curCount: int
    var pushedCount: int
    var poppedCount: int
    var lock: int
    var popSem: int
    var pushSem: int

    ghost predicate Valid()
      reads this
    {
      cells.Length == size && 1 <= size && 0 <= front < size
    }

    ghost function View(): Memory
      reads this, cells
    {
      Memory(size, front, curCount, pushedCount, poppedCount, pushSem, popSem, cells[..])
    }

    constructor (size: nat)
      requires 1 <= size
      ensures Valid() && fresh(cells) && this.size == size && lock == 1
      ensures View() == Create(cells[..]) && Quiescent(View()) && Contents(View()) == []
    {
      this.size := size;
      cells := new WorkItem[size];
      front, curCount := 0, 0;
      lock, pushSem, popSem := 1, size, 0;
      pushedCount, poppedCount := 0, 0;
    }

    // The timed waits: `gaveUp` says that the call returned an error, which it may do at any time; it has to
    // when there is no token and no other thread to post one.
    method TimedWaitPush(gaveUp: bool) returns (ok: bool)
      requires Valid()
      modifies this`pushSem
      ensures Valid() && ok == (old(pushSem) > 0 && !gaveUp)
      ensures View() == if ok then TakePushToken(old(View())) else old(View())
    {
      ok := pushSem > 0 && !gaveUp;
      if ok {
        pushSem := pushSem - 1;
      }
    }

    method TimedWaitPop(gaveUp: bool) returns (ok: bool)
      requires Valid()
      modifies this`popSem
      ensures Valid() && ok == (old(popSem) > 0 && !gaveUp)
      ensures View() == if ok then TakePopToken(old(View())) else old(View())
    {
      ok := popSem > 0 && !gaveUp;
      if ok {
        popSem := popSem - 1;
      }
    }

    method ReserveUnderLock() returns (slot: int)
      requires Valid() && lock == 1
      modifies this`lock, this`curCount, this`pushedCount
      ensures Valid() && lock == 1
      ensures 0 <= slot < size && slot == NextSlot(old(View()))
      ensures View() == ReserveSlot(old(View()))
    {
      lock := lock - 1;
      slot := (front + curCount) % size;
      curCount := curCount + 1;
      pushedCount := pushedCount + 1;
      lock := lock + 1;
    }

    method WriteCell(slot: int, item: WorkItem)
      requires Valid() && 0 <= slot < size
      modifies cells
      ensures Valid() && View() == Store(old(View()), slot, item)
    {
      cells[slot] := item;
    }

    method PostPopSem()
      requires Valid()
      modifies this`popSem
      ensures Valid() && View() == PostPop(old(View()))
    {
      popSem := popSem + 1;
    }

    method ClaimUnderLock() returns (slot: int)
      requires Valid() && lock == 1
      modifies this`lock, this`front, this`curCount, this`poppedCount
      ensures Valid() && lock == 1
      ensures 0 <= slot < size && slot == old(front)
      ensures View() == ClaimFront(old(View()))
    {
      lock := lock - 1;
      slot := front;
      front := (front + 1) % size;
      curCount := curCount - 1;
      poppedCount := poppedCount + 1;
      lock := lock + 1;
    }

    method ReadCell(slot: int) returns (item: WorkItem)
      requires Valid() && 0 <= slot < size
      ensures item == View().cells[slot]
    {
      item := cells[slot];
    }

    method PostPushSem()
      requires Valid()
      modifies this`pushSem
      ensures Valid() && View() == PostPush(old(View()))
    {
      pushSem := pushSem + 1;
    }

    // A push that no other thread interrupts: it fails and changes nothing, or the item joins the end.
    method Push(item: WorkItem, gaveUp: bool) returns (ok: bool)
      requires Valid() && lock == 1
      modifies this, cells
      ensures Valid() && lock == 1
      ensures ok == (old(pushSem) > 0 && !gaveUp)
      ensures View() == if ok then WholePush(old(View()), item) else old(View())
      ensures old(Quiescent(View())) ==>
                && Quiescent(View())
                && Contents(View()) == if ok then old(Contents(View())) + [item] else old(Contents(View()))
    {
      ghost var before := View();
      ok := TimedWaitPush(gaveUp);
      if !ok {
        return;
      }
      var slot := ReserveUnderLock();
      WriteCell(slot, item);
      PostPopSem();
      if Quiescent(before) {
        WholePushAppends(before, item);
      }
    }

    // A pop that no other thread interrupts: it fails and changes nothing, or it takes the oldest item.
    method Pop(target: WorkItem, gaveUp: bool) returns (ok: bool, item: WorkItem)
      requires Valid() && lock == 1
      modifies this
      ensures Valid() && lock == 1
      ensures ok == (old(popSem) > 0 && !gaveUp)
      ensures View() == if ok then WholePop(old(View())) else old(View())
      ensures item == if ok then old(cells[front]) else target
      ensures old(Quiescent(View())) ==>
                && Quiescent(View())
                && (ok ==> [item] + Contents(View()) == old(Contents(View())))
    {
      ghost var before := View();
      ok := TimedWaitPop(gaveUp);
      if !ok {
        item := target;
        return;
      }
      var slot := ClaimUnderLock();
      item := ReadCell(slot);
      PostPushSem();
      if Quiescent(before) {
        WholePopRemovesFirst(before);
      }
    }
  }

  function PushRun(p: nat, item: WorkItem): seq<Action> {
    [PushWait(p, item), Reserve(p), Write(p), Publish(p)]
  }

  function PopRun(c: nat): seq<Action> {
    [PopWait(c), Claim(c), Read(c), Release(c)]
  }

  lemma RunOfFour(s: State, a: Action, b: Action, c: Action, d: Action)
    requires SlotsInRange(s) && Legal(s, a) && Legal(Apply(s, a), b)
    requires Legal(Apply(Apply(s, a), b), c) && Legal(Apply(Apply(Apply(s, a), b), c), d)
    ensures LegalRun(s, [a, b, c, d])
    ensures After(s, [a, b, c, d]) == Apply(Apply(Apply(Apply(s, a), b), c), d)
  {
    hide Apply, Legal, SlotsInRange;
    var s1 := Apply(s, a);
    var s2 := Apply(s1, b);
    var s3 := Apply(s2, c);
    var s4 := Apply(s3, d);
    assert LegalRun(s4, []) && After(s4, []) == s4;
    assert LegalRun(s3, [d]) && After(s3, [d]) == s4;
    assert [c, d][1..] == [d];
    assert LegalRun(s2, [c, d]) && After(s2, [c, d]) == s4;
    assert [b, c, d][1..] == [c, d];
    assert LegalRun(s1, [b, c, d]) && After(s1, [b, c, d]) == s4;
    assert [a, b, c, d][1..] == [b, c, d];
  }

  // The object's uninterrupted push and pop are the transition system's four steps taken in a row.
  lemma PushIsFourSteps(s: State, p: nat, item: WorkItem)
    requires SlotsInRange(s) && Legal(s, PushWait(p, item))
    ensures LegalRun(s, PushRun(p, item))
    ensures After(s, PushRun(p, item)).mem == WholePush(s.mem, item)
    ensures After(s, PushRun(p, item)).producers == s.producers
    ensures After(s, PushRun(p, item)).log == s.log + [item]
  {
    RunOfFour(s, PushWait(p, item), Reserve(p), Write(p), Publish(p));
    assert s.producers[p := PIdle] == s.producers;
  }

  lemma PopIsFourSteps(s: State, c: nat)
    requires SlotsInRange(s) && Legal(s, PopWait(c))
    ensures LegalRun(s, PopRun(c))
    ensures After(s, PopRun(c)).mem == WholePop(s.mem)
    ensures After(s, PopRun(c)).consumers == s.consumers
    ensures After(s, PopRun(c)).receipts == s.receipts + [Receipt(s.mem.popped, s.mem.cells[s.mem.front])]
  {
    RunOfFour(s, PopWait(c), Claim(c), Read(c), Release(c));
    assert s.consumers[c := CIdle] == s.consumers;
  }
}
