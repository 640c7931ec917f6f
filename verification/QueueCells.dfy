/**
 What the cells hold in every run, in order or not: the item of the last push that wrote them, or what they held at
 the start. So a pop never delivers anything else, even where it delivers the wrong item.
 */
module QueueCells {
  import opened Items
  import opened QueueMemory
  import opened QueueProtocol
  import opened QueueCounts

  // Cell i was last written for ticket tags[i], which belongs there, or has not been written.
  ghost predicate CellTold(s: State, cells: seq<WorkItem>, i: nat)
    requires SlotsInRange(s) && i < s.mem.size == |cells|
  {
    var t := s.tags[i];
    if t == -1 then s.mem.cells[i] == cells[i]
    else 0 <= t < |s.log| && SlotOf(t, s.mem.size) == i && s.mem.cells[i] == s.log[t]
  }

  ghost predicate CellsTold(s: State, cells: seq<WorkItem>)
    requires SlotsInRange(s)
  {
    s.mem.size == |cells| && forall i :: 0 <= i < |cells| ==> CellTold(s, cells, i)
  }

  // x was pushed with a ticket that uses the same cell as ticket t, or lay in that cell at the start.
  ghost predicate FromCellOf(s: State, cells: seq<WorkItem>, t: int, x: WorkItem)
    requires |cells| >= 1
  {
    || x == cells[SlotOf(t, |cells|)]
    || exists u :: 0 <= u < |s.log| && SlotOf(u, |cells|) == SlotOf(t, |cells|) && x == s.log[u]
  }

  ghost predicate ReceiptsTold(s: State, cells: seq<WorkItem>)
    requires |cells| >= 1
  {
    forall k :: 0 <= k < |s.receipts| ==> FromCellOf(s, cells, s.receipts[k].ticket, s.receipts[k].value)
  }

  lemma CellsToldStep(s: State, a: Action, cells: seq<WorkItem>)
    requires Kept(s) && CellsTold(s, cells) && Legal(s, a)
    ensures CellsTold(Apply(s, a), cells)
  {
    hide Counted, SlotOf, NextSlot;
    var s' := Apply(s, a);
    forall i | 0 <= i < |cells|
      ensures CellTold(s', cells, i)
    {
      assert CellTold(s, cells, i);
    }
  }

  lemma FromCellKept(s: State, a: Action, cells: seq<WorkItem>, t: int, x: WorkItem)
    requires SlotsInRange(s) && Legal(s, a) && |cells| >= 1 && FromCellOf(s, cells, t, x)
    ensures FromCellOf(Apply(s, a), cells, t, x)
  {
    hide SlotOf;
    if x != cells[SlotOf(t, |cells|)] {
      var u :| 0 <= u < |s.log| && SlotOf(u, |cells|) == SlotOf(t, |cells|) && x == s.log[u];
      assert Apply(s, a).log[u] == s.log[u];
    }
  }

  lemma ReadFromCell(s: State, c: nat, cells: seq<WorkItem>)
    requires Kept(s) && CellsTold(s, cells) && Legal(s, Read(c))
    ensures FromCellOf(s, cells, s.consumers[c].ticket, s.mem.cells[s.consumers[c].slot])
  {
    hide Counted, SlotOf;
    assert CellTold(s, cells, s.consumers[c].slot);
  }

  lemma ReceiptsToldStep(s: State, a: Action, cells: seq<WorkItem>)
    requires |cells| >= 1 && Kept(s) && CellsTold(s, cells) && ReceiptsTold(s, cells) && Legal(s, a)
    ensures ReceiptsTold(Apply(s, a), cells)
  {
    hide Counted, Ticketed, CellsTold, FromCellOf;
    var s' := Apply(s, a);
    if a.Read? {
      ReadFromCell(s, a.c, cells);
    }
    forall k | 0 <= k < |s'.receipts|
      ensures FromCellOf(s', cells, s'.receipts[k].ticket, s'.receipts[k].value)
    {
      FromCellKept(s, a, cells, s'.receipts[k].ticket, s'.receipts[k].value);
    }
  }

  lemma {:induction false} ToldRun(s: State, run: seq<Action>, cells: seq<WorkItem>)
    requires Kept(s) && CellsTold(s, cells) && ReceiptsTold(s, cells) && LegalRun(s, run)
    ensures SlotsInRange(After(s, run)) && CellsTold(After(s, run), cells) && ReceiptsTold(After(s, run), cells)
    decreases |run|
  {
    hide Counted, Ticketed, CellTold, ReceiptsTold, Apply, Legal;
    if run != [] {
      CellsToldStep(s, run[0], cells);
      ReceiptsToldStep(s, run[0], cells);
      KeptStep(s, run[0]);
      ToldRun(Apply(s, run[0]), run[1..], cells);
    }
  }

  // In every reachable state, for any number of threads and any order of posts, each cell holds the item of the
  // ticket last written to it, or its first content; and every delivery is such an item.
  lemma NothingIsInvented(cells: seq<WorkItem>, producers: nat, consumers: nat, s: State)
    requires |cells| >= 1 && Reachable(cells, producers, consumers, s)
    ensures CellsTold(s, cells) && ReceiptsTold(s, cells)
  {
    var s0 := Init(cells, producers, consumers);
    InitKept(cells, producers, consumers);
    var run :| LegalRun(s0, run) && After(s0, run) == s;
    ToldRun(s0, run, cells);
  }
}
