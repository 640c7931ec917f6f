/**
 The message-queue variant of the producer and consumer. The kernel queue is a bounded FIFO; a producer cooks
 a new item for every send and lets it go when the send fails, so unlike Delivery this one loses items.
 */
module MessageLink {
  import opened Arithmetic
  import opened Items

  // A producer's counters; `open` says whether the message queue could be opened.
  datatype Sender = Sender(id: nat, next: nat, produced: nat, open: bool)

  datatype Receiver = Receiver(consumed: nat, open: bool)

  // `cooked`, `failures`, `received` and `sentAt` record history: `sentAt` holds the position among the cooked
  // items of every item that went into the channel, in the order in which they went in.
  datatype Link = Link(
    capacity: nat, channel: seq<WorkItem>, sender: Sender, receiver: Receiver,
    cooked: seq<WorkItem>, failures: nat, received: seq<WorkItem>, sentAt: seq<nat>)

  datatype Work = Send(data: seq<char>, accepted: bool) | Receive(arrived: bool)

  function NewSender(id: nat, open: bool): Sender { Sender(id, IdAt(id, 0), 0, open) }

  // The id advances whether or not the send succeeds; only a success is counted.
  function AfterSend(sender: Sender, accepted: bool): Sender {
    sender.(next := (sender.next + 1) % UINT_RANGE, produced := sender.produced + if accepted then 1 else 0)
  }

  function AfterReceive(receiver: Receiver): Receiver { receiver.(consumed := receiver.consumed + 1) }

  function Connect(capacity: nat, id: nat, sendOpen: bool, receiveOpen: bool): Link {
    Link(capacity, [], NewSender(id, sendOpen), Receiver(0, receiveOpen), [], 0, [], [])
  }

  predicate Possible(l: Link, w: Work) {
    match w
    case Send(_, accepted) => l.sender.open && accepted ==> |l.channel| < l.capacity
    case Receive(arrived) => l.receiver.open && arrived ==> |l.channel| > 0
  }

  function Do(l: Link, w: Work): Link
    requires Possible(l, w)
  {
    match w
    case Send(data, accepted) =>
      if !l.sender.open then l
      else
        var item := WorkItem(l.sender.next, data);
        var l' := l.(sender := AfterSend(l.sender, accepted), cooked := l.cooked + [item]);
        if accepted then l'.(channel := l.channel + [item], sentAt := l.sentAt + [|l.cooked|])
        else l'.(failures := l.failures + 1)
    case Receive(arrived) =>
      if !l.receiver.open || !arrived then l
      else l.(receiver := AfterReceive(l.receiver), channel := l.channel[1..], received := l.received + [l.channel[0]])
  }

  predicate PossibleRun(l: Link, run: seq<Work>)
    decreases |run|
  {
    run == [] || (Possible(l, run[0]) && PossibleRun(Do(l, run[0]), run[1..]))
  }

  function DoAll(l: Link, run: seq<Work>): Link
    requires PossibleRun(l, run)
    decreases |run|
  {
    if run == [] then l else DoAll(Do(l, run[0]), run[1..])
  }

  // The items that went into the channel are the cooked ones at increasing positions.
  ghost predicate Selected(items: seq<WorkItem>, cooked: seq<WorkItem>, at: seq<nat>) {
    && |items| == |at|
    && (forall k :: 0 <= k < |at| ==> at[k] < |cooked| && items[k] == cooked[at[k]])
    && (forall j, k :: 0 <= j < k < |at| ==> at[j] < at[k])
  }

  ghost predicate Balanced(l: Link) {
    && Selected(l.received + l.channel, l.cooked, l.sentAt)
    && |l.cooked| == l.sender.produced + l.failures
    && l.sender.produced == |l.received| + |l.channel|
    && l.receiver.consumed == |l.received|
    && |l.channel| <= l.capacity
    && l.sender.next == IdAt(l.sender.id, |l.cooked|)
    && (forall k :: 0 <= k < |l.cooked| ==> l.cooked[k].id == IdAt(l.sender.id, k))
  }

  lemma SelectedExtends(items: seq<WorkItem>, cooked: seq<WorkItem>, at: seq<nat>, x: WorkItem)
    requires Selected(items, cooked, at)
    ensures Selected(items, cooked + [x], at)
    ensures Selected(items + [x], cooked + [x], at + [|cooked|])
  {
  }

  lemma NewLinkBalanced(capacity: nat, id: nat, sendOpen: bool, receiveOpen: bool)
    ensures Balanced(Connect(capacity, id, sendOpen, receiveOpen))
  {
  }

  lemma BalancedSend(l: Link, data: seq<char>, accepted: bool)
    requires Balanced(l) && Possible(l, Send(data, accepted)) && l.sender.open
    ensures Balanced(Do(l, Send(data, accepted)))
  {
    var item := WorkItem(l.sender.next, data);
    SelectedExtends(l.received + l.channel, l.cooked, l.sentAt, item);
    assert (l.received + l.channel) + [item] == l.received + (l.channel + [item]);
  }

  lemma BalancedReceive(l: Link)
    requires Balanced(l) && Possible(l, Receive(true)) && l.receiver.open
    ensures Balanced(Do(l, Receive(true)))
  {
    assert (l.received + [l.channel[0]]) + l.channel[1..] == l.received + l.channel;
  }

  lemma BalancedStep(l: Link, w: Work)
    requires Balanced(l) && Possible(l, w)
    ensures Balanced(Do(l, w)) && Do(l, w).sender.id == l.sender.id
  {
    match w
    case Send(data, accepted) =>
      if l.sender.open {
        BalancedSend(l, data, accepted);
      }
    case Receive(arrived) =>
      if l.receiver.open && arrived {
        BalancedReceive(l);
      }
  }

  lemma {:induction false} BalancedRun(l: Link, run: seq<Work>)
    requires Balanced(l) && PossibleRun(l, run)
    ensures Balanced(DoAll(l, run)) && DoAll(l, run).sender.id == l.sender.id
    decreases |run|
  {
    if run != [] {
      BalancedStep(l, run[0]);
      BalancedRun(Do(l, run[0]), run[1..]);
    }
  }

  // Before the ids wrap, items selected at increasing positions have increasing ids.
  lemma SelectedIdsIncrease(l: Link, j: nat, k: nat)
    requires Balanced(l) && j < k < |l.received|
    requires ITEM_STARTING_ID_EACH_PRODUCER * l.sender.id + |l.cooked| <= UINT_RANGE
    ensures l.received[j].id < l.received[k].id
  {
    assert l.received[j] == (l.received + l.channel)[j] && l.received[k] == (l.received + l.channel)[k];
  }

  // At every work boundary of every run: the counters agree with what was cooked, lost, sent and received, and
  // the received ids, before they wrap, are a strictly increasing selection of the cooked ones.
  lemma ReceivedInOrder(capacity: nat, id: nat, sendOpen: bool, receiveOpen: bool, run: seq<Work>)
    requires PossibleRun(Connect(capacity, id, sendOpen, receiveOpen), run)
    ensures
      var l := DoAll(Connect(capacity, id, sendOpen, receiveOpen), run);
      && |l.cooked| == l.sender.produced + l.failures
      && l.sender.produced - l.receiver.consumed == |l.channel| <= capacity
      && Selected(l.received + l.channel, l.cooked, l.sentAt)
      && (forall k :: 0 <= k < |l.cooked| ==> l.cooked[k].id == IdAt(id, k))
      && (ITEM_STARTING_ID_EACH_PRODUCER * id + |l.cooked| <= UINT_RANGE ==>
            forall j, k :: 0 <= j < k < |l.received| ==> l.received[j].id < l.received[k].id)
  {
    var l0 := Connect(capacity, id, sendOpen, receiveOpen);
    BalancedRun(l0, run);
    EndsKept(l0, run);
    var l := DoAll(l0, run);
    if ITEM_STARTING_ID_EACH_PRODUCER * id + |l.cooked| <= UINT_RANGE {
      forall j, k | 0 <= j < k < |l.received|
        ensures l.received[j].id < l.received[k].id
      {
        SelectedIdsIncrease(l, j, k);
      }
    }
  }

  // A strictly increasing selection of all positions is the identity.
  lemma {:induction false} FullSelection(at: seq<nat>, n: nat, k: nat)
    requires |at| == n && k < n
    requires forall i :: 0 <= i < n ==> at[i] < n
    requires forall i, j :: 0 <= i < j < n ==> at[i] < at[j]
    ensures k <= at[k]
    ensures at[k] <= k
  {
    AtLeastIndex(at, k);
    AtMostIndex(at, n, k);
  }

  lemma {:induction false} AtLeastIndex(at: seq<nat>, k: nat)
    requires k < |at| && forall i, j :: 0 <= i < j < |at| ==> at[i] < at[j]
    ensures k <= at[k]
  {
    if k > 0 {
      AtLeastIndex(at, k - 1);
    }
  }

  lemma {:induction false} AtMostIndex(at: seq<nat>, n: nat, k: nat)
    requires |at| == n && k < n && at[n - 1] < n
    requires forall i, j :: 0 <= i < j < n ==> at[i] < at[j]
    ensures at[k] <= k
    decreases n - k
  {
    if k + 1 < n {
      AtMostIndex(at, n, k + 1);
    }
  }

  lemma SelectedAll(items: seq<WorkItem>, cooked: seq<WorkItem>, at: seq<nat>)
    requires Selected(items, cooked, at) && |items| == |cooked|
    ensures items == cooked
  {
    forall k | 0 <= k < |cooked|
      ensures items[k] == cooked[k]
    {
      FullSelection(at, |cooked|, k);
    }
  }

  // Exactly when no send failed does the consumer see, or have waiting for it, all that was cooked.
  lemma LosslessIffNoFailure(capacity: nat, id: nat, sendOpen: bool, receiveOpen: bool, run: seq<Work>)
    requires PossibleRun(Connect(capacity, id, sendOpen, receiveOpen), run)
    ensures
      var l := DoAll(Connect(capacity, id, sendOpen, receiveOpen), run);
      l.received + l.channel == l.cooked <==> l.failures == 0
  {
    hide Selected, DoAll, IdAt;
    var l0 := Connect(capacity, id, sendOpen, receiveOpen);
    NewLinkBalanced(capacity, id, sendOpen, receiveOpen);
    BalancedRun(l0, run);
    var l := DoAll(l0, run);
    assert |l.received + l.channel| == |l.cooked| - l.failures;
    if l.failures == 0 {
      SelectedAll(l.received + l.channel, l.cooked, l.sentAt);
    }
  }

  // What a run asks for, read off its own works: the data sent, how many sends succeed, how many messages arrive.
  function SentData(run: seq<Work>): seq<seq<char>> {
    if run == [] then [] else (if run[0].Send? then [run[0].data] else []) + SentData(run[1..])
  }

  function Failed(run: seq<Work>): nat {
    if run == [] then 0 else (if run[0].Send? && !run[0].accepted then 1 else 0) + Failed(run[1..])
  }

  function Arrivals(run: seq<Work>): nat {
    if run == [] then 0 else (if run[0] == Receive(true) then 1 else 0) + Arrivals(run[1..])
  }

  // The items of the sends that succeed, when the first send of the run takes the sender's k-th id.
  function Accepted(id: nat, k: nat, run: seq<Work>): seq<WorkItem>
    decreases |run|
  {
    if run == [] then []
    else if run[0].Receive? then Accepted(id, k, run[1..])
    else (if run[0].accepted then [WorkItem(IdAt(id, k), run[0].data)] else []) + Accepted(id, k + 1, run[1..])
  }

  function DataOf(items: seq<WorkItem>): (data: seq<seq<char>>)
    ensures |data| == |items| && forall k :: 0 <= k < |items| ==> data[k] == items[k].data
  {
    seq(|items|, k requires 0 <= k < |items| => items[k].data)
  }

  lemma AppendThree<T>(a: seq<T>, b: seq<T>, c: seq<T>)
    ensures (a + b) + c == a + (b + c)
  {
  }

  // With the sender open, every send cooks, and fails or joins the line behind what was sent before.
  lemma {:induction false} OpenSenderRun(l: Link, run: seq<Work>)
    requires PossibleRun(l, run) && l.sender.open && l.sender.next == IdAt(l.sender.id, |l.cooked|)
    ensures
      var l' := DoAll(l, run);
      && DataOf(l'.cooked) == DataOf(l.cooked) + SentData(run)
      && l'.failures == l.failures + Failed(run)
      && l'.received + l'.channel == (l.received + l.channel) + Accepted(l.sender.id, |l.cooked|, run)
    decreases |run|
  {
    hide IdAt;
    if run != [] {
      var w, next := run[0], Do(l, run[0]);
      OpenSenderStep(l, w);
      OpenSenderRun(next, run[1..]);
      var rest := Accepted(l.sender.id, |next.cooked|, run[1..]);
      if w.Send? {
        AppendThree(DataOf(l.cooked), [w.data], SentData(run[1..]));
        if w.accepted {
          AppendThree(l.received + l.channel, [WorkItem(l.sender.next, w.data)], rest);
        }
      } else {
        assert [] + SentData(run[1..]) == SentData(run[1..]);
      }
    }
  }

  lemma OpenSenderStep(l: Link, w: Work)
    requires Possible(l, w) && l.sender.open && l.sender.next == IdAt(l.sender.id, |l.cooked|)
    ensures
      var l' := Do(l, w);
      && l'.sender.open && l'.sender.id == l.sender.id && l'.sender.next == IdAt(l.sender.id, |l'.cooked|)
      && |l'.cooked| == |l.cooked| + (if w.Send? then 1 else 0)
      && DataOf(l'.cooked) == DataOf(l.cooked) + (if w.Send? then [w.data] else [])
      && l'.failures == l.failures + (if w.Send? && !w.accepted then 1 else 0)
      && l'.received + l'.channel == (l.received + l.channel) +
         (if w.Send? && w.accepted then [WorkItem(l.sender.next, w.data)] else [])
  {
    hide IdAt;
    NextId(l.sender.id, |l.cooked|);
    if w.Receive? && l.receiver.open && w.arrived {
      assert (l.received + [l.channel[0]]) + l.channel[1..] == l.received + l.channel;
    }
  }

  // With the receiver open, every arrival is received and counted.
  lemma {:induction false} ReceiverRun(l: Link, run: seq<Work>)
    requires PossibleRun(l, run)
    ensures
      var l', arrived := DoAll(l, run), if l.receiver.open then Arrivals(run) else 0;
      |l'.received| == |l.received| + arrived && l'.receiver.consumed == l.receiver.consumed + arrived
    decreases |run|
  {
    if run != [] {
      ReceiverRun(Do(l, run[0]), run[1..]);
    }
  }

  // A sender whose queue did not open does nothing.
  lemma {:induction false} ClosedSenderRun(l: Link, run: seq<Work>)
    requires PossibleRun(l, run) && !l.sender.open
    ensures DoAll(l, run).sender == l.sender && DoAll(l, run).cooked == l.cooked
    ensures DoAll(l, run).failures == l.failures
    ensures DoAll(l, run).received + DoAll(l, run).channel == l.received + l.channel
    decreases |run|
  {
    if run != [] {
      var next := Do(l, run[0]);
      assert next.received + next.channel == l.received + l.channel;
      ClosedSenderRun(next, run[1..]);
    }
  }

  // What the two ends have done after any run, read off its works: an open sender has cooked an item around the data
  // of every send, and the items of those that succeeded are, in order, the received ones and then those in the
  // channel; an open receiver has received and counted as many as arrived. A closed end has done nothing.
  lemma EveryWorkCounts(capacity: nat, id: nat, sendOpen: bool, receiveOpen: bool, run: seq<Work>)
    requires PossibleRun(Connect(capacity, id, sendOpen, receiveOpen), run)
    ensures
      var l := DoAll(Connect(capacity, id, sendOpen, receiveOpen), run);
      && |l.received| == l.receiver.consumed == (if receiveOpen then Arrivals(run) else 0)
      && DataOf(l.cooked) == (if sendOpen then SentData(run) else [])
      && l.failures == (if sendOpen then Failed(run) else 0)
      && l.received + l.channel == (if sendOpen then Accepted(id, 0, run) else [])
  {
    hide DoAll, PossibleRun, IdAt;
    var l0 := Connect(capacity, id, sendOpen, receiveOpen);
    assert l0.sender.next == IdAt(id, 0);
    ReceiverRun(l0, run);
    if sendOpen {
      OpenSenderRun(l0, run);
      assert DataOf(l0.cooked) + SentData(run) == SentData(run);
      assert (l0.received + l0.channel) + Accepted(id, 0, run) == Accepted(id, 0, run);
    } else {
      ClosedSenderRun(l0, run);
    }
  }

  // What can come next with both ends open, by the same counts: a send can always fail, and succeed while fewer than
  // `capacity` items are on their way; a receive can always time out, and succeed while one is.
  lemma WhatCanComeNext(capacity: nat, id: nat, run: seq<Work>, data: seq<char>)
    requires PossibleRun(Connect(capacity, id, true, true), run)
    ensures
      var l, underway := DoAll(Connect(capacity, id, true, true), run), |Accepted(id, 0, run)| - Arrivals(run);
      && 0 <= underway <= capacity
      && (Possible(l, Send(data, true)) <==> underway < capacity)
      && (Possible(l, Receive(true)) <==> underway > 0)
      && Possible(l, Send(data, false)) && Possible(l, Receive(false))
  {
    hide DoAll, PossibleRun, Accepted, Arrivals;
    var l0 := Connect(capacity, id, true, true);
    EveryWorkCounts(capacity, id, true, true, run);
    ReceivedInOrder(capacity, id, true, true, run);
    EndsKept(l0, run);
  }

  lemma {:induction false} EndsKept(l: Link, run: seq<Work>)
    requires PossibleRun(l, run)
    ensures DoAll(l, run).sender.open == l.sender.open && DoAll(l, run).receiver.open == l.receiver.open
    ensures DoAll(l, run).capacity == l.capacity
    decreases |run|
  {
    if run != [] {
      EndsKept(Do(l, run[0]), run[1..]);
    }
  }

  // The kernel's queue of messages, all sent with one priority.
  class Channel {
    const capacity: nat
    var messages: seq<WorkItem>

    constructor (capacity: nat)
      ensures this.capacity == capacity && messages == []
    {
      this.capacity := capacity;
      messages := [];
    }

    // A send fails when the channel stays full, and may fail for other reasons: `gaveUp`.
    method TimedSend(item: WorkItem, gaveUp: bool) returns (ok: bool)
      modifies this
      ensures ok == (|old(messages)| < capacity && !gaveUp)
      ensures messages == if ok then old(messages) + [item] else old(messages)
    {
      ok := |messages| < capacity && !gaveUp;
      if ok {
        messages := messages + [item];
      }
    }

    method TimedReceive(junk: WorkItem, gaveUp: bool) returns (ok: bool, item: WorkItem)
      modifies this
      ensures ok == (|old(messages)| > 0 && !gaveUp)
      ensures ok ==> [item] + messages == old(messages)
      ensures !ok ==> messages == old(messages) && item == junk
    {
      ok, item := |messages| > 0 && !gaveUp, junk;
      if ok {
        item := messages[0];
        messages := messages[1..];
      }
    }
  }

  class MessageProducer {
    const id: nat
    const isOpen: bool
    var nextItemId: nat
    var producedCount: nat

    ghost function View(): Sender
      reads this
    {
      Sender(id, nextItemId, producedCount, isOpen)
    }

    constructor (id: nat, isOpen: bool)
      ensures View() == NewSender(id, isOpen)
    {
      this.id := id;
      this.isOpen := isOpen;
      nextItemId := ITEM_STARTING_ID_EACH_PRODUCER * id % UINT_RANGE;
      producedCount := 0;
    }

    // Cooks a fresh item around `data` and sends it; a failed send is not retried.
    method Work(channel: Channel, data: seq<char>, gaveUp: bool) returns (accepted: bool)
      modifies this, channel
      ensures accepted == (isOpen && |old(channel.messages)| < channel.capacity && !gaveUp)
      ensures View() == if isOpen then AfterSend(old(View()), accepted) else old(View())
      ensures channel.messages ==
              old(channel.messages) + if accepted then [WorkItem(old(nextItemId), data)] else []
      ensures forall l: Link {:trigger Do(l, Send(data, accepted))} ::
                l.sender == old(View()) && l.channel == old(channel.messages) && l.capacity == channel.capacity ==>
                  && Possible(l, Send(data, accepted))
                  && Do(l, Send(data, accepted)).sender == View()
                  && Do(l, Send(data, accepted)).channel == channel.messages
    {
      accepted := false;
      if isOpen {
        var item := WorkItem(nextItemId, data);
        nextItemId := (nextItemId + 1) % UINT_RANGE;
        accepted := channel.TimedSend(item, gaveUp);
        if accepted {
          producedCount := producedCount + 1;
        }
      }
      forall l: Link | l.sender == old(View()) && l.channel == old(channel.messages) && l.capacity == channel.capacity
        ensures Possible(l, Send(data, accepted))
        ensures Do(l, Send(data, accepted)).sender == View()
        ensures Do(l, Send(data, accepted)).channel == channel.messages
      {
        assert Possible(l, Send(data, accepted));
      }
    }
  }

  class MessageConsumer {
    const isOpen: bool
    var consumedCount: nat

    ghost function View(): Receiver
      reads this
    {
      Receiver(consumedCount, isOpen)
    }

    constructor (isOpen: bool)
      ensures View() == Receiver(0, isOpen)
    {
      this.isOpen := isOpen;
      consumedCount := 0;
    }

    method Work(channel: Channel, junk: WorkItem, gaveUp: bool) returns (arrived: bool, item: WorkItem)
      modifies this, channel
      ensures arrived == (isOpen && |old(channel.messages)| > 0 && !gaveUp)
      ensures View() == if arrived then AfterReceive(old(View())) else old(View())
      ensures arrived ==> [item] + channel.messages == old(channel.messages)
      ensures !arrived ==> channel.messages == old(channel.messages)
      ensures forall l: Link {:trigger Do(l, Receive(arrived))} ::
                l.receiver == old(View()) && l.channel == old(channel.messages) && l.capacity == channel.capacity ==>
                  && Possible(l, Receive(arrived))
                  && Do(l, Receive(arrived)).receiver == View()
                  && Do(l, Receive(arrived)).channel == channel.messages
                  && Do(l, Receive(arrived)).received == l.received + if arrived then [item] else []
    {
      arrived, item := false, junk;
      if isOpen {
        arrived, item := channel.TimedReceive(junk, gaveUp);
        if arrived {
          consumedCount := consumedCount + 1;
        }
      }
      forall l: Link | l.receiver == old(View()) && l.channel == old(channel.messages) && l.capacity == channel.capacity
        ensures Possible(l, Receive(arrived))
        ensures Do(l, Receive(arrived)).receiver == View()
        ensures Do(l, Receive(arrived)).channel == channel.messages
        ensures Do(l, Receive(arrived)).received == l.received + if arrived then [item] else []
      {
        assert Possible(l, Receive(arrived));
      }
    }
  }
}
