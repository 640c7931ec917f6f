/**
 The bounded queue as a transition system: any number of producer and consumer threads, one step per
 statement that other threads can observe. Reserving and claiming a slot are single steps here because the
 source runs them under the lock; QueueLock takes that apart. The cell is written and read outside
 the lock, so a thread can be stopped between owning a slot and touching it.
 */
module QueueProtocol {
  import opened Items
  import opened QueueMemory

  // Where a thread is inside `push`: `ticket` is the number of pushes reserved before its own.
  datatype Producer =
    | PIdle
    | PToken(item: WorkItem)
    | PReserved(item: WorkItem, slot: int, ticket: int)
    | PWritten(item: WorkItem, slot: int, ticket: int)
  {
    predicate Holds() { PReserved? || PWritten? }
  }

  // Where a thread is inside `pop`: `ticket` is the number of pops claimed before its own.
  datatype Consumer =
    | CIdle
    | CToken
    | CClaimed(slot: int, ticket: int)
    | CRead(slot: int, ticket: int)
  {
    predicate Holds() { CClaimed? || CRead? }
  }

  // What a pop delivered: the value it read and the ticket it had claimed.
  datatype Receipt = Receipt(ticket: int, value: WorkItem)

  // `log`, `tags`, `receipts`, `published` and `released` record history: the items in reservation order,
  // the ticket last written to each cell (-1 for none), the deliveries, and the posts on each semaphore.
  datatype State = State(
    mem: Memory, producers: seq<Producer>, consumers: seq<Consumer>,
    log: seq<WorkItem>, tags: seq<int>, receipts: seq<Receipt>, published: int, released: int)

  datatype Action =
    | PushWait(p: nat, item: WorkItem)
    | PushTimeout(p: nat)
    | Reserve(p: nat)
    | Write(p: nat)
    | Publish(p: nat)
    | PopWait(c: nat)
    | PopTimeout(c: nat)
    | Claim(c: nat)
    | Read(c: nat)
    | Release(c: nat)
  {
    predicate IsTimeout() { PushTimeout? || PopTimeout? }
    predicate OfProducer() { PushWait? || PushTimeout? || Reserve? || Write? || Publish? }
  }

  predicate SlotsInRange(s: State) {
    && WellFormed(s.mem)
    && |s.tags| == s.mem.size
    && (forall p :: 0 <= p < |s.producers| && s.producers[p].Holds() ==> 0 <= s.producers[p].slot < s.mem.size)
    && (forall c :: 0 <= c < |s.consumers| && s.consumers[c].Holds() ==> 0 <= s.consumers[c].slot < s.mem.size)
  }

  function Init(cells: seq<WorkItem>, producers: nat, consumers: nat): (s: State)
    requires |cells| >= 1
    ensures SlotsInRange(s)
  {
    State(Create(cells), seq(producers, _ => PIdle), seq(consumers, _ => CIdle),
          [], seq(|cells|, _ => -1), [], 0, 0)
  }

  // Which steps a state allows. A timed wait may give up whenever it is called.
  predicate Legal(s: State, a: Action) {
    if a.OfProducer() then
      && a.p < |s.producers|
      && match a
         case PushWait(p, _) => s.producers[p].PIdle? && s.mem.pushSem > 0
         case PushTimeout(p) => s.producers[p].PIdle?
         case Reserve(p) => s.producers[p].PToken?
         case Write(p) => s.producers[p].PReserved?
         case Publish(p) => s.producers[p].PWritten?
    else
      && a.c < |s.consumers|
      && match a
         case PopWait(c) => s.consumers[c].CIdle? && s.mem.popSem > 0
         case PopTimeout(c) => s.consumers[c].CIdle?
         case Claim(c) => s.consumers[c].CToken?
         case Read(c) => s.consumers[c].CClaimed?
         case Release(c) => s.consumers[c].CRead?
  }

  function Apply(s: State, a: Action): (s': State)
    requires SlotsInRange(s) && Legal(s, a)
    ensures SlotsInRange(s')
    ensures s'.mem.size == s.mem.size
    ensures |s'.producers| == |s.producers| && |s'.consumers| == |s.consumers|
  {
    match a
    case PushWait(p, item) =>
      s.(mem := TakePushToken(s.mem), producers := s.producers[p := PToken(item)])
    case PushTimeout(_) => s
    case Reserve(p) =>
      var item := s.producers[p].item;
      s.(mem := ReserveSlot(s.mem),
      producers := s.producers[p := PReserved(item, NextSlot(s.mem), s.mem.pushed)],
      log := s.log + [item])
    case Write(p) =>
      var t := s.producers[p];
      s.(mem := Store(s.mem, t.slot, t.item),
      producers := s.producers[p := PWritten(t.item, t.slot, t.ticket)],
      tags := s.tags[t.slot := t.ticket])
    case Publish(p) =>
      s.(mem := PostPop(s.mem), producers := s.producers[p := PIdle], published := s.published + 1)
    case PopWait(c) =>
      s.(mem := TakePopToken(s.mem), consumers := s.consumers[c := CToken])
    case PopTimeout(_) => s
    case Claim(c) =>
      s.(mem := ClaimFront(s.mem),
      consumers := s.consumers[c := CClaimed(s.mem.front, s.mem.popped)])
    case Read(c) =>
      var t := s.consumers[c];
      s.(consumers := s.consumers[c := CRead(t.slot, t.ticket)],
      receipts := s.receipts + [Receipt(t.ticket, s.mem.cells[t.slot])])
    case Release(c) =>
      s.(mem := PostPush(s.mem), consumers := s.consumers[c := CIdle], released := s.released + 1)
  }

  // A run is a sequence of steps, each allowed by the state the earlier ones lead to.
  predicate LegalRun(s: State, run: seq<Action>)
    requires SlotsInRange(s)
    decreases |run|
  {
    run == [] || (Legal(s, run[0]) && LegalRun(Apply(s, run[0]), run[1..]))
  }

  function After(s: State, run: seq<Action>): (s': State)
    requires SlotsInRange(s) && LegalRun(s, run)
    ensures SlotsInRange(s')
    decreases |run|
  {
    if run == [] then s else After(Apply(s, run[0]), run[1..])
  }

  ghost predicate Reaches(s: State, s': State)
    requires SlotsInRange(s)
    ensures Reaches(s, s') ==> SlotsInRange(s')
  {
    exists run :: LegalRun(s, run) && After(s, run) == s'
  }

  // Any wait may fail, as often as it is called, in any state; and a call that fails leaves no trace.
  lemma {:induction false} WaitsMayFail(s: State, failures: seq<Action>)
    requires SlotsInRange(s)
    requires forall k :: 0 <= k < |failures| ==>
               || (exists p: nat :: p < |s.producers| && s.producers[p].PIdle? && failures[k] == PushTimeout(p))
               || (exists c: nat :: c < |s.consumers| && s.consumers[c].CIdle? && failures[k] == PopTimeout(c))
    ensures LegalRun(s, failures) && After(s, failures) == s
    decreases |failures|
  {
    if failures != [] {
      assert Legal(s, failures[0]) && Apply(s, failures[0]) == s;
      WaitsMayFail(s, failures[1..]);
    }
  }

  lemma {:induction false} ExtendRun(s: State, run: seq<Action>, a: Action)
    requires SlotsInRange(s) && LegalRun(s, run) && Legal(After(s, run), a)
    ensures LegalRun(s, run + [a]) && After(s, run + [a]) == Apply(After(s, run), a)
    decreases |run|
  {
    if run == [] {
      assert [a][1..] == [];
    } else {
      ExtendRun(Apply(s, run[0]), run[1..], a);
      assert (run + [a])[1..] == run[1..] + [a];
    }
  }

  lemma ReachesSelf(s: State)
    requires SlotsInRange(s)
    ensures Reaches(s, s)
  {
    assert LegalRun(s, []) && After(s, []) == s;
  }

  lemma ReachesNext(s0: State, s: State, a: Action)
    requires SlotsInRange(s0) && SlotsInRange(s) && Reaches(s0, s) && Legal(s, a)
    ensures Reaches(s0, Apply(s, a))
  {
    var run :| LegalRun(s0, run) && After(s0, run) == s;
    ExtendRun(s0, run, a);
  }

  lemma {:induction false} ShapeKeptRun(s: State, run: seq<Action>)
    requires SlotsInRange(s) && LegalRun(s, run)
    ensures After(s, run).mem.size == s.mem.size
    ensures |After(s, run).producers| == |s.producers| && |After(s, run).consumers| == |s.consumers|
    decreases |run|
  {
    if run != [] {
      ShapeKeptRun(Apply(s, run[0]), run[1..]);
    }
  }

  // A state some run of a fresh queue ends in.
  ghost predicate Reachable(cells: seq<WorkItem>, producers: nat, consumers: nat, s: State)
    requires |cells| >= 1
    ensures Reachable(cells, producers, consumers, s) ==> SlotsInRange(s)
  {
    Reaches(Init(cells, producers, consumers), s)
  }

  lemma ReachableShape(cells: seq<WorkItem>, producers: nat, consumers: nat, s: State)
    requires |cells| >= 1 && Reachable(cells, producers, consumers, s)
    ensures s.mem.size == |cells| && |s.producers| == producers && |s.consumers| == consumers
  {
    var s0 := Init(cells, producers, consumers);
    var run :| LegalRun(s0, run) && After(s0, run) == s;
    ShapeKeptRun(s0, run);
  }
}
