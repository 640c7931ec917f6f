/** The producer and consumer objects whose `work` the scheduler repeats, and how a simulation wires them. */
module Workers {
  import opened Arithmetic
  import opened Blocks
  import opened Items
  import opened QueueMemory
  import opened QueueObject
  import opened Delivery
  import opened Wrappers

  class Producer {
    const id: nat
    const savedData: array<char>
    var savedId: nat
    var valid: bool
    var nextItemId: nat

    ghost predicate Valid()
      reads this
    {
      savedData.Length == MAX_WORK_ITEM_LEN
    }

    ghost function View(): Client
      reads this, savedData
    {
      Client(id, nextItemId, WorkItem(savedId, savedData[..]), valid)
    }

    constructor (id: nat)
      ensures Valid() && fresh(savedData) && this.id == id
      ensures View() == NewClient(id, WorkItem(savedId, savedData[..]))
    {
      this.id := id;
      savedData := new char[MAX_WORK_ITEM_LEN];
      savedId := 0;
      valid := false;
      nextItemId := ITEM_STARTING_ID_EACH_PRODUCER * id % UINT_RANGE;
    }

    // Fills the saved item with the next id and random letters. `lengthDraw` and `draws` are what `rand` returns.
    method CookItem(lengthDraw: nat, draws: seq<nat>)
      requires Valid() && |draws| >= MAX_WORK_ITEM_LEN
      modifies this`savedId, this`nextItemId, savedData
      ensures Valid() && savedId == old(nextItemId) && nextItemId == (old(nextItemId) + 1) % UINT_RANGE
      ensures
        var length := lengthDraw % 511;
        && savedData[length] == '\0'
        && (forall i :: 0 <= i < length ==> savedData[i] == ('a' as int + draws[i] % 26) as char)
        && (forall i :: length < i < MAX_WORK_ITEM_LEN ==> savedData[i] == old(savedData[i]))
    {
      savedId := nextItemId;
      nextItemId := (nextItemId + 1) % UINT_RANGE;
      var length := lengthDraw % (MAX_WORK_ITEM_LEN - 1);
      for i := 0 to length
        modifies savedData
        invariant forall j :: 0 <= j < i ==> savedData[j] == ('a' as int + draws[j] % 26) as char
        invariant forall j :: i <= j < MAX_WORK_ITEM_LEN ==> savedData[j] == old(savedData[j])
      {
        savedData[i] := ('a' as int + draws[i] % 26) as char;
      }
      savedData[length] := '\0';
    }

    // Cooks unless an item is still saved, and keeps the item until a push succeeds.
    method Work(queue: Queue, lengthDraw: nat, draws: seq<nat>, gaveUp: bool) returns (ok: bool)
      requires Valid() && |draws| >= MAX_WORK_ITEM_LEN
      requires queue.Valid() && queue.lock == 1
      modifies this, savedData, queue, queue.cells
      ensures Valid() && queue.Valid() && queue.lock == 1
      ensures ok == (old(queue.pushSem) > 0 && !gaveUp)
      ensures
        var cooked := if old(valid) then old(View()) else CookClient(old(View()), savedData[..]);
        && View() == cooked.(valid := !ok)
        && cooked.saved == WorkItem(if old(valid) then old(savedId) else old(nextItemId), savedData[..])
        && queue.View() == if ok then WholePush(old(queue.View()), cooked.saved) else old(queue.View())
      ensures old(valid) ==> savedData[..] == old(savedData[..])
      ensures
        var length := lengthDraw % 511;
        !old(valid) ==>
          && savedData[length] == '\0'
          && (forall i :: 0 <= i < length ==> savedData[i] == ('a' as int + draws[i] % 26) as char)
          && (forall i :: length < i < MAX_WORK_ITEM_LEN ==> savedData[i] == old(savedData[i]))
      ensures old(Quiescent(queue.View())) ==>
                && Quiescent(queue.View())
                && Contents(queue.View()) ==
                   if ok then old(Contents(queue.View())) + [View().saved] else old(Contents(queue.View()))
    {
      if !valid {
        CookItem(lengthDraw, draws);
        valid := true;
      }
      ok := queue.Push(WorkItem(savedId, savedData[..]), gaveUp);
      if ok {
        valid := false;
      }
    }
  }

  class Consumer {
    const id: nat

    constructor (id: nat)
      ensures this.id == id
    {
      this.id := id;
    }

    // Pops into a local item and consumes it if the pop succeeded.
    method Work(queue: Queue, junk: WorkItem, gaveUp: bool) returns (consumed: Option<WorkItem>)
      requires queue.Valid() && queue.lock == 1
      modifies queue
      ensures queue.Valid() && queue.lock == 1
      ensures consumed.Some? <==> old(queue.popSem) > 0 && !gaveUp
      ensures queue.View() == if consumed.Some? then WholePop(old(queue.View())) else old(queue.View())
      ensures consumed.Some? ==> consumed.value == old(queue.cells[queue.front])
      ensures old(Quiescent(queue.View())) ==>
                && Quiescent(queue.View())
                && (consumed.Some? ==> [consumed.value] + Contents(queue.View()) == old(Contents(queue.View())))
    {
      var ok, item := queue.Pop(junk, gaveUp);
      if ok {
        consumed := Some(item);
      } else {
        consumed := None;
      }
    }
  }

  // The simulation's wiring: workers get consecutive ids, and each core's queue the next `perCore` of them.
  method WireWorkers(cores: nat, perCore: nat) returns (queueOf: array<nat>)
    ensures queueOf.Length == cores * perCore
    ensures perCore > 0 ==> forall id :: 0 <= id < cores * perCore ==> queueOf[id] == BlockOf(id, perCore)
  {
    queueOf := new nat[cores * perCore];
    var id := 0;
    for core := 0 to cores
      invariant id == core * perCore <= cores * perCore
      invariant perCore > 0 ==> forall k :: 0 <= k < id ==> queueOf[k] == BlockOf(k, perCore)
    {
      BlockFits(core, cores, perCore);
      for i := 0 to perCore
        invariant id == core * perCore + i
        invariant perCore > 0 ==> forall k :: 0 <= k < id ==> queueOf[k] == BlockOf(k, perCore)
      {
        BlockMember(core, i, perCore);
        queueOf[id] := core;
        id := id + 1;
      }
    }
  }
}
