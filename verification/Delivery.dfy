/**
 The producers and consumers around the queue. A producer cooks an item, keeps it until a push takes it, and
 only then cooks the next; a consumer pops. Ids then arrive in the order they were cooked, none missing and
 none twice, whatever the waits do.
 */
module Delivery {
  import opened Arithmetic
  import opened Items
  import opened QueueProtocol
  import opened QueueCounts
  import opened QueueOrder
  import opened QueueDrain

  // A producer between two calls of `work`: its number, its next id and the item it still has to push.
  datatype Client = Client(id: nat, next: nat, saved: WorkItem, valid: bool)

  // `cooked` counts what each client has cooked; `origin` names the client of each entry of the queue's log.
  datatype System = System(q: State, clients: seq<Client>, cooked: seq<nat>, origin: seq<nat>)

  datatype SystemAction = Cook(p: nat, data: seq<char>) | Queue(a: Action)

  function NewClient(id: nat, junk: WorkItem): Client {
    Client(id, IdAt(id, 0), junk, false)
  }

  // Cooking takes the next id, which wraps like a 32-bit unsigned int.
  function CookClient(client: Client, data: seq<char>): Client {
    client.(next := (client.next + 1) % UINT_RANGE, saved := WorkItem(client.next, data), valid := true)
  }

  predicate Matched(s: System) {
    SlotsInRange(s.q) && |s.clients| == |s.cooked| == |s.q.producers|
  }

  function Start(cells: seq<WorkItem>, ids: seq<nat>, consumers: nat, junk: WorkItem): (s: System)
    requires |cells| >= 1
    ensures Matched(s)
  {
    System(Init(cells, |ids|, consumers), seq(|ids|, i requires 0 <= i < |ids| => NewClient(ids[i], junk)),
           seq(|ids|, _ => 0), [])
  }

  // `work` cooks when no item is saved, and then pushes the saved item; a failed push leaves it saved.
  predicate Allowed(s: System, sa: SystemAction)
    requires Matched(s)
  {
    match sa
    case Cook(p, _) => p < |s.clients| && s.q.producers[p].PIdle? && !s.clients[p].valid
    case Queue(a) =>
      && Legal(s.q, a)
      && (a.PushWait? ==> s.clients[a.p].valid && a.item == s.clients[a.p].saved)
      && (a.PushTimeout? ==> s.clients[a.p].valid)
  }

  function Next(s: System, sa: SystemAction): (s': System)
    requires Matched(s) && Allowed(s, sa)
    ensures Matched(s')
  {
    match sa
    case Cook(p, data) =>
      s.(clients := s.clients[p := CookClient(s.clients[p], data)], cooked := s.cooked[p := s.cooked[p] + 1])
    case Queue(a) =>
      var s' := s.(q := Apply(s.q, a));
      if a.Reserve? then s'.(origin := s.origin + [a.p])
      else if a.Publish? then s'.(clients := s.clients[a.p := s.clients[a.p].(valid := false)])
      else s'
  }

  predicate AllowedRun(s: System, run: seq<SystemAction>)
    requires Matched(s)
    decreases |run|
  {
    run == [] || (Allowed(s, run[0]) && AllowedRun(Next(s, run[0]), run[1..]))
  }

  function Final(s: System, run: seq<SystemAction>): (s': System)
    requires Matched(s) && AllowedRun(s, run)
    ensures Matched(s')
    decreases |run|
  {
    if run == [] then s else Final(Next(s, run[0]), run[1..])
  }

  predicate OrderedSystemRun(s: System, run: seq<SystemAction>)
    requires Matched(s) && AllowedRun(s, run)
    decreases |run|
  {
    run == [] ||
    ((run[0].Queue? ==> InTurn(s.q, run[0].a)) && OrderedSystemRun(Next(s, run[0]), run[1..]))
  }

  // The entries of the log that client p pushed, in order.
  function Stream(log: seq<WorkItem>, origin: seq<nat>, p: nat): seq<WorkItem>
    requires |log| == |origin|
  {
    if log == [] then []
    else
      var last := |log| - 1;
      Stream(log[..last], origin[..last], p) + (if origin[last] == p then [log[last]] else [])
  }

  // Whether client p has an item that is cooked but not yet in the log.
  function Waiting(s: System, p: nat): nat
    requires Matched(s) && p < |s.clients|
  {
    if s.clients[p].valid && (s.q.producers[p].PIdle? || s.q.producers[p].PToken?) then 1 else 0
  }

  ghost predicate ClientFits(s: System, p: nat)
    requires Matched(s) && p < |s.clients| && |s.q.log| == |s.origin|
  {
    var client, stream := s.clients[p], Stream(s.q.log, s.origin, p);
    && client.next == IdAt(client.id, s.cooked[p])
    && s.cooked[p] == |stream| + Waiting(s, p)
    && (Waiting(s, p) == 1 ==> client.saved.id == IdAt(client.id, s.cooked[p] - 1))
    && (!s.q.producers[p].PIdle? ==> client.valid && s.q.producers[p].item == client.saved)
    && (forall k :: 0 <= k < |stream| ==> stream[k].id == IdAt(client.id, k))
  }

  ghost predicate Accounted(s: System)
    requires Matched(s)
  {
    && |s.q.log| == |s.origin|
    && (forall t :: 0 <= t < |s.origin| ==> s.origin[t] < |s.clients|)
    && (forall p :: 0 <= p < |s.clients| ==> ClientFits(s, p))
  }

  lemma StreamExtends(log: seq<WorkItem>, origin: seq<nat>, x: WorkItem, b: nat, p: nat)
    requires |log| == |origin|
    ensures Stream(log + [x], origin + [b], p) == Stream(log, origin, p) + (if b == p then [x] else [])
  {
    assert (log + [x])[..|log|] == log;
    assert (origin + [b])[..|origin|] == origin;
  }

  lemma CookFits(s: System, p: nat, data: seq<char>, q: nat)
    requires Matched(s) && Accounted(s) && Allowed(s, Cook(p, data)) && q < |s.clients|
    ensures ClientFits(Next(s, Cook(p, data)), q)
  {
    assert ClientFits(s, q);
    NextId(s.clients[q].id, s.cooked[q]);
  }

  lemma ReserveFits(s: System, p: nat, q: nat)
    requires Matched(s) && Accounted(s) && Allowed(s, Queue(Reserve(p))) && q < |s.clients|
    ensures |Next(s, Queue(Reserve(p))).q.log| == |Next(s, Queue(Reserve(p))).origin|
    ensures ClientFits(Next(s, Queue(Reserve(p))), q)
  {
    hide IdAt, Stream;
    assert ClientFits(s, q);
    StreamExtends(s.q.log, s.origin, s.q.producers[p].item, p, q);
  }

  lemma QueueFits(s: System, a: Action, q: nat)
    requires Matched(s) && Accounted(s) && Allowed(s, Queue(a)) && q < |s.clients| && !a.Reserve?
    ensures Next(s, Queue(a)).q.log == s.q.log && Next(s, Queue(a)).origin == s.origin
    ensures ClientFits(Next(s, Queue(a)), q)
  {
    assert ClientFits(s, q);
  }

  lemma AccountedStep(s: System, sa: SystemAction)
    requires Matched(s) && Accounted(s) && Allowed(s, sa)
    ensures Accounted(Next(s, sa))
  {
    forall q | 0 <= q < |s.clients|
      ensures |Next(s, sa).q.log| == |Next(s, sa).origin| && ClientFits(Next(s, sa), q)
    {
      if sa.Cook? {
        CookFits(s, sa.p, sa.data, q);
      } else if sa.a.Reserve? {
        ReserveFits(s, sa.a.p, q);
      } else {
        QueueFits(s, sa.a, q);
      }
    }
  }

  // How many entries before entry t came from the same client.
  function Rank(origin: seq<nat>, t: nat): nat
    requires t < |origin|
  {
    multiset(origin[..t])[origin[t]]
  }

  lemma {:induction false} StreamLength(log: seq<WorkItem>, origin: seq<nat>, p: nat)
    requires |log| == |origin|
    ensures |Stream(log, origin, p)| == multiset(origin)[p]
  {
    if log != [] {
      var last := |log| - 1;
      StreamLength(log[..last], origin[..last], p);
      assert origin == origin[..last] + [origin[last]];
    }
  }

  // Entry t of the log is the Rank(t)-th item of the client it came from.
  lemma {:induction false} StreamAtRank(log: seq<WorkItem>, origin: seq<nat>, t: nat)
    requires |log| == |origin| && t < |log|
    ensures Rank(origin, t) < |Stream(log, origin, origin[t])|
    ensures Stream(log, origin, origin[t])[Rank(origin, t)] == log[t]
    decreases |log|
  {
    var last := |log| - 1;
    if t == last {
      StreamLength(log[..last], origin[..last], origin[t]);
    } else {
      StreamAtRank(log[..last], origin[..last], t);
      assert origin[..last][..t] == origin[..t];
    }
  }

  lemma LoggedId(s: System, t: nat)
    requires Matched(s) && Accounted(s) && t < |s.q.log|
    ensures s.origin[t] < |s.clients|
    ensures s.q.log[t].id == IdAt(s.clients[s.origin[t]].id, Rank(s.origin, t))
  {
    assert ClientFits(s, s.origin[t]);
    StreamAtRank(s.q.log, s.origin, t);
  }

  ghost predicate SystemKept(s: System) {
    Matched(s) && Accounted(s) && Kept(s.q)
  }

  lemma StartKept(cells: seq<WorkItem>, ids: seq<nat>, consumers: nat, junk: WorkItem)
    requires |cells| >= 1
    ensures SystemKept(Start(cells, ids, consumers, junk))
    ensures Orderly(Start(cells, ids, consumers, junk).q)
  {
    InitOrderly(cells, |ids|, consumers);
    var s := Start(cells, ids, consumers, junk);
    forall p | 0 <= p < |s.clients|
      ensures ClientFits(s, p)
    {
      assert Stream([], [], p) == [];
    }
  }

  lemma SystemKeptStep(s: System, sa: SystemAction)
    requires SystemKept(s) && Allowed(s, sa)
    ensures SystemKept(Next(s, sa))
    ensures Orderly(s.q) && (sa.Queue? ==> InTurn(s.q, sa.a)) ==> Orderly(Next(s, sa).q)
  {
    AccountedStep(s, sa);
    if sa.Queue? {
      KeptStep(s.q, sa.a);
      if Orderly(s.q) && InTurn(s.q, sa.a) {
        OrderlyStep(s.q, sa.a);
      }
    }
  }

  lemma {:induction false} SystemRun(s: System, run: seq<SystemAction>)
    requires SystemKept(s) && AllowedRun(s, run)
    ensures SystemKept(Final(s, run))
    ensures Orderly(s.q) && OrderedSystemRun(s, run) ==> Orderly(Final(s, run).q)
    decreases |run|
  {
    if run != [] {
      SystemKeptStep(s, run[0]);
      SystemRun(Next(s, run[0]), run[1..]);
    }
  }

  lemma {:induction false} NamesKept(s: System, run: seq<SystemAction>)
    requires Matched(s) && AllowedRun(s, run)
    ensures |Final(s, run).clients| == |s.clients|
    ensures |Final(s, run).q.consumers| == |s.q.consumers| && Final(s, run).q.mem.size == s.q.mem.size
    ensures forall p :: 0 <= p < |s.clients| ==> Final(s, run).clients[p].id == s.clients[p].id
    decreases |run|
  {
    if run != [] {
      NamesKept(Next(s, run[0]), run[1..]);
    }
  }

  // What client p cooked during a run, read off the run's own steps.
  function Cooks(run: seq<SystemAction>, p: nat): seq<seq<char>> {
    if run == [] then []
    else (if run[0].Cook? && run[0].p == p then [run[0].data] else []) + Cooks(run[1..], p)
  }

  // The k-th item of the producer numbered `id` that cooked these data.
  function ItemAt(id: nat, cooks: seq<seq<char>>, k: nat): WorkItem
    requires k < |cooks|
  {
    WorkItem(IdAt(id, k), cooks[k])
  }

  // The data of client p's entries are those it cooked, in order, and an item it keeps has the last of them.
  ghost predicate DataFits(s: System, p: nat, cooks: seq<seq<char>>)
    requires Matched(s) && p < |s.clients| && |s.q.log| == |s.origin|
  {
    var client, stream := s.clients[p], Stream(s.q.log, s.origin, p);
    && s.cooked[p] == |cooks|
    && |stream| <= |cooks| && (forall k :: 0 <= k < |stream| ==> stream[k].data == cooks[k])
    && (client.valid ==> |cooks| > 0 && client.saved.data == cooks[|cooks| - 1])
  }

  lemma DataFitsCook(s: System, p: nat, data: seq<char>, q: nat, cooks: seq<seq<char>>)
    requires Matched(s) && Accounted(s) && Allowed(s, Cook(p, data)) && q < |s.clients| && DataFits(s, q, cooks)
    ensures DataFits(Next(s, Cook(p, data)), q, if p == q then cooks + [data] else cooks)
  {
    hide IdAt, Stream;
    assert ClientFits(s, q);
  }

  lemma DataFitsReserve(s: System, p: nat, q: nat, cooks: seq<seq<char>>)
    requires Matched(s) && Accounted(s) && Allowed(s, Queue(Reserve(p))) && q < |s.clients| && DataFits(s, q, cooks)
    ensures |Next(s, Queue(Reserve(p))).q.log| == |Next(s, Queue(Reserve(p))).origin|
    ensures DataFits(Next(s, Queue(Reserve(p))), q, cooks)
  {
    hide IdAt, Stream;
    assert ClientFits(s, q);
    StreamExtends(s.q.log, s.origin, s.q.producers[p].item, p, q);
  }

  lemma DataFitsQueue(s: System, a: Action, q: nat, cooks: seq<seq<char>>)
    requires Matched(s) && Accounted(s) && Allowed(s, Queue(a)) && q < |s.clients| && !a.Reserve?
    requires DataFits(s, q, cooks)
    ensures |Next(s, Queue(a)).q.log| == |Next(s, Queue(a)).origin|
    ensures DataFits(Next(s, Queue(a)), q, cooks)
  {
    hide Stream;
    QueueFits(s, a, q);
  }

  lemma {:induction false} DataRun(s: System, run: seq<SystemAction>, p: nat, cooks: seq<seq<char>>)
    requires SystemKept(s) && AllowedRun(s, run) && p < |s.clients| && DataFits(s, p, cooks)
    ensures SystemKept(Final(s, run)) && p < |Final(s, run).clients|
    ensures DataFits(Final(s, run), p, cooks + Cooks(run, p))
    decreases |run|
  {
    hide DataFits, Accounted, Kept, Next, Allowed;
    if run == [] {
      assert cooks + [] == cooks;
    } else {
      var sa := run[0];
      SystemKeptStep(s, sa);
      var first := if sa.Cook? && sa.p == p then [sa.data] else [];
      DataFitsStep(s, sa, p, cooks);
      assert (cooks + first) + Cooks(run[1..], p) == cooks + Cooks(run, p);
      DataRun(Next(s, sa), run[1..], p, cooks + first);
    }
  }

  lemma DataFitsStep(s: System, sa: SystemAction, p: nat, cooks: seq<seq<char>>)
    requires SystemKept(s) && Allowed(s, sa) && p < |s.clients| && DataFits(s, p, cooks)
    ensures |Next(s, sa).clients| == |s.clients| && |Next(s, sa).q.log| == |Next(s, sa).origin|
    ensures DataFits(Next(s, sa), p, cooks + if sa.Cook? && sa.p == p then [sa.data] else [])
  {
    hide DataFits, ClientFits;
    assert cooks + [] == cooks;
    if sa.Cook? {
      DataFitsCook(s, sa.p, sa.data, p, cooks);
    } else if sa.a.Reserve? {
      DataFitsReserve(s, sa.a.p, p, cooks);
    } else {
      DataFitsQueue(s, sa.a, p, cooks);
    }
  }

  lemma LoggedData(s: System, t: nat, cooks: seq<seq<char>>)
    requires Matched(s) && Accounted(s) && t < |s.q.log| && s.origin[t] < |s.clients|
    requires DataFits(s, s.origin[t], cooks)
    ensures Rank(s.origin, t) < |cooks|
    ensures s.q.log[t] == ItemAt(s.clients[s.origin[t]].id, cooks, Rank(s.origin, t))
  {
    LoggedId(s, t);
    StreamAtRank(s.q.log, s.origin, t);
  }

  // x is the item its client cooked for entry t of the log: the next one in the client's own order.
  ghost predicate IsCooked(ids: seq<nat>, run: seq<SystemAction>, origin: seq<nat>, t: int, x: WorkItem) {
    && 0 <= t < |origin| && origin[t] < |ids|
    && Rank(origin, t) < |Cooks(run, origin[t])|
    && x == ItemAt(ids[origin[t]], Cooks(run, origin[t]), Rank(origin, t))
  }

  lemma DataFromStart(cells: seq<WorkItem>, ids: seq<nat>, consumers: nat, junk: WorkItem,
                      run: seq<SystemAction>, p: nat)
    requires |cells| >= 1 && p < |ids| && AllowedRun(Start(cells, ids, consumers, junk), run)
    ensures
      var s := Final(Start(cells, ids, consumers, junk), run);
      && SystemKept(s) && |s.clients| == |ids| && s.clients[p].id == ids[p]
      && ClientFits(s, p) && DataFits(s, p, Cooks(run, p))
  {
    hide Kept, Cooks, Stream, Init;
    var s0 := Start(cells, ids, consumers, junk);
    StartKept(cells, ids, consumers, junk);
    SystemRun(s0, run);
    NamesKept(s0, run);
    assert DataFits(s0, p, []) by {
      StartData(cells, ids, consumers, junk, p);
    }
    DataRun(s0, run, p, []);
    assert [] + Cooks(run, p) == Cooks(run, p);
  }

  lemma StartData(cells: seq<WorkItem>, ids: seq<nat>, consumers: nat, junk: WorkItem, p: nat)
    requires |cells| >= 1 && p < |ids|
    ensures
      var s0 := Start(cells, ids, consumers, junk);
      |s0.q.log| == |s0.origin| && DataFits(s0, p, [])
  {
    assert Stream([], [], p) == [];
  }

  lemma ClientOfRun(cells: seq<WorkItem>, ids: seq<nat>, consumers: nat, junk: WorkItem,
                    run: seq<SystemAction>, p: nat)
    requires |cells| >= 1 && p < |ids| && AllowedRun(Start(cells, ids, consumers, junk), run)
    ensures
      var s := Final(Start(cells, ids, consumers, junk), run);
      && |s.clients| == |ids|
      && |Cooks(run, p)| == s.cooked[p] == multiset(s.origin)[p] + Waiting(s, p)
      && (Waiting(s, p) == 1 ==>
            |Cooks(run, p)| > 0 && s.clients[p].saved == ItemAt(ids[p], Cooks(run, p), |Cooks(run, p)| - 1))
  {
    hide Kept, Cooks, IdAt, Start;
    DataFromStart(cells, ids, consumers, junk, run, p);
    var s := Final(Start(cells, ids, consumers, junk), run);
    StreamLength(s.q.log, s.origin, p);
  }

  lemma EntryOfRun(cells: seq<WorkItem>, ids: seq<nat>, consumers: nat, junk: WorkItem,
                   run: seq<SystemAction>, t: nat)
    requires |cells| >= 1 && AllowedRun(Start(cells, ids, consumers, junk), run)
    requires t < |Final(Start(cells, ids, consumers, junk), run).origin|
    ensures
      var s := Final(Start(cells, ids, consumers, junk), run);
      |s.q.log| == |s.origin| && IsCooked(ids, run, s.origin, t, s.q.log[t])
  {
    hide Kept, Cooks, IdAt, Start, ClientFits, DataFits, ItemAt;
    var s0 := Start(cells, ids, consumers, junk);
    var s := Final(s0, run);
    AllLogged(cells, ids, consumers, junk, run);
    var p := s.origin[t];
    DataFromStart(cells, ids, consumers, junk, run, p);
    LoggedData(s, t, Cooks(run, p));
  }

  lemma AllLogged(cells: seq<WorkItem>, ids: seq<nat>, consumers: nat, junk: WorkItem, run: seq<SystemAction>)
    requires |cells| >= 1 && AllowedRun(Start(cells, ids, consumers, junk), run)
    ensures
      var s := Final(Start(cells, ids, consumers, junk), run);
      && SystemKept(s) && |s.clients| == |ids| && |s.q.log| == |s.origin|
      && (forall t :: 0 <= t < |s.origin| ==> s.origin[t] < |ids|)
      && |s.q.log| == |s.q.receipts| + NC(s.q.consumers, AtCClaimed) + s.q.mem.count
  {
    hide ClientFits;
    var s0 := Start(cells, ids, consumers, junk);
    StartKept(cells, ids, consumers, junk);
    SystemRun(s0, run);
    NamesKept(s0, run);
  }

  // A push that times out leaves everything as it was, any number of times, and the item is still there to push.
  lemma {:induction false} RetryKeepsItem(s: System, p: nat, n: nat)
    requires Matched(s) && p < |s.clients| && s.q.producers[p].PIdle? && s.clients[p].valid
    ensures AllowedRun(s, seq(n, _ => Queue(PushTimeout(p)))) && Final(s, seq(n, _ => Queue(PushTimeout(p)))) == s
    ensures Allowed(s, Queue(PushWait(p, s.clients[p].saved))) <==> s.q.mem.pushSem > 0
  {
    var run := seq(n, _ => Queue(PushTimeout(p)));
    if n > 0 {
      RetryKeepsItem(s, p, n - 1);
      assert run[1..] == seq(n - 1, _ => Queue(PushTimeout(p)));
      assert Next(s, run[0]) == s;
    }
  }

  // A pop that times out changes nothing either, and any idle consumer's may.
  lemma FailedPopChangesNothing(s: System, c: nat)
    requires Matched(s) && c < |s.q.consumers| && s.q.consumers[c].CIdle?
    ensures Allowed(s, Queue(PopTimeout(c))) && Next(s, Queue(PopTimeout(c))) == s
  {
  }

  // Accounting for any number of threads and any interleaving: what a client cooked is in the log or waiting, item
  // by item, and what is in the log has been delivered, is being read, or is in the ring.
  lemma NothingGetsLost(cells: seq<WorkItem>, ids: seq<nat>, consumers: nat, junk: WorkItem, run: seq<SystemAction>)
    requires |cells| >= 1
    requires AllowedRun(Start(cells, ids, consumers, junk), run)
    ensures
      var s := Final(Start(cells, ids, consumers, junk), run);
      && |s.clients| == |ids| && |s.q.log| == |s.origin|
      && |s.q.log| == |s.q.receipts| + NC(s.q.consumers, AtCClaimed) + s.q.mem.count
      && (forall p :: 0 <= p < |ids| ==> |Cooks(run, p)| == s.cooked[p] == multiset(s.origin)[p] + Waiting(s, p))
      && (forall p :: 0 <= p < |ids| && Waiting(s, p) == 1 ==>
            |Cooks(run, p)| > 0 && s.clients[p].saved == ItemAt(ids[p], Cooks(run, p), |Cooks(run, p)| - 1))
      && (forall t :: 0 <= t < |s.origin| ==> IsCooked(ids, run, s.origin, t, s.q.log[t]))
  {
    hide Accounted, Kept, Waiting, ItemAt, Stream, IsCooked, Cooks;
    var s := Final(Start(cells, ids, consumers, junk), run);
    AllLogged(cells, ids, consumers, junk, run);
    forall p | 0 <= p < |ids|
      ensures |Cooks(run, p)| == s.cooked[p] == multiset(s.origin)[p] + Waiting(s, p)
      ensures Waiting(s, p) == 1 ==>
                |Cooks(run, p)| > 0 && s.clients[p].saved == ItemAt(ids[p], Cooks(run, p), |Cooks(run, p)| - 1)
    {
      ClientOfRun(cells, ids, consumers, junk, run, p);
    }
    forall t | 0 <= t < |s.origin|
      ensures IsCooked(ids, run, s.origin, t, s.q.log[t])
    {
      EntryOfRun(cells, ids, consumers, junk, run, t);
    }
  }

  // Delivery for any number of threads: when the posts come in ticket order, a delivery carries the item of
  // its ticket, which is the next its producer cooked, id and data; no ticket is delivered twice.
  lemma OrderedDelivery(cells: seq<WorkItem>, ids: seq<nat>, consumers: nat, junk: WorkItem, run: seq<SystemAction>)
    requires |cells| >= 1
    requires AllowedRun(Start(cells, ids, consumers, junk), run)
    requires OrderedSystemRun(Start(cells, ids, consumers, junk), run)
    ensures
      var s := Final(Start(cells, ids, consumers, junk), run);
      && (forall k :: 0 <= k < |s.q.receipts| ==>
            IsCooked(ids, run, s.origin, s.q.receipts[k].ticket, s.q.receipts[k].value))
      && (forall k, l :: 0 <= k < l < |s.q.receipts| ==> s.q.receipts[k].ticket != s.q.receipts[l].ticket)
  {
    var s0 := Start(cells, ids, consumers, junk);
    hide IsCooked, Waiting, Cooks, ItemAt;
    StartKept(cells, ids, consumers, junk);
    SystemRun(s0, run);
    NothingGetsLost(cells, ids, consumers, junk, run);
  }

  // With a single consumer the deliveries come in ticket order.
  ghost predicate InTicketOrder(q: State) {
    && |q.consumers| == 1
    && (forall k :: 0 <= k < |q.receipts| ==> q.receipts[k].ticket == k)
    && (q.consumers[0].CClaimed? ==> q.consumers[0].ticket == |q.receipts|)
  }

  lemma InTicketOrderStep(q: State, a: Action)
    requires Kept(q) && InTicketOrder(q) && Legal(q, a)
    ensures InTicketOrder(Apply(q, a))
  {
    if a.Claim? {
      NCBound(q.consumers[0 := CIdle]);
      NCMove(q.consumers, 0, CClaimed(0, 0));
      NCBound(q.consumers[0 := CClaimed(0, 0)]);
    }
  }

  lemma {:induction false} OneConsumerRun(s: System, run: seq<SystemAction>)
    requires SystemKept(s) && AllowedRun(s, run) && InTicketOrder(s.q)
    ensures InTicketOrder(Final(s, run).q)
    decreases |run|
  {
    if run != [] {
      if run[0].Queue? {
        InTicketOrderStep(s.q, run[0].a);
      }
      SystemKeptStep(s, run[0]);
      OneConsumerRun(Next(s, run[0]), run[1..]);
    }
  }

  // One producer and one consumer, or a ring of one cell, keep the posts in ticket order by themselves.
  lemma {:induction false} SelfOrderedSystemRun(s: System, run: seq<SystemAction>)
    requires SystemKept(s) && Orderly(s.q) && AllowedRun(s, run)
    requires KeepsOrderByItself(s.q.mem.size, |s.q.producers|, |s.q.consumers|)
    ensures OrderedSystemRun(s, run)
    decreases |run|
  {
    if run != [] {
      if run[0].Queue? {
        AlwaysInTurn(s.q, run[0].a);
      }
      SystemKeptStep(s, run[0]);
      SelfOrderedSystemRun(Next(s, run[0]), run[1..]);
    }
  }

  lemma OneClientRank(origin: seq<nat>, t: nat)
    requires t < |origin| && forall i :: 0 <= i < |origin| ==> origin[i] == 0
    ensures Rank(origin, t) == t
  {
    AllZero(origin[..t]);
  }

  lemma CookedByOne(id: nat, run: seq<SystemAction>, origin: seq<nat>, t: nat, x: WorkItem)
    requires IsCooked([id], run, origin, t, x) && forall i :: 0 <= i < |origin| ==> origin[i] == 0
    ensures t < |Cooks(run, 0)| && x == ItemAt(id, Cooks(run, 0), t)
  {
    OneClientRank(origin, t);
  }

  lemma {:induction false} AllZero(zeros: seq<nat>)
    requires forall i :: 0 <= i < |zeros| ==> zeros[i] == 0
    ensures multiset(zeros)[0] == |zeros|
  {
    if zeros != [] {
      AllZero(zeros[1..]);
      assert zeros == [zeros[0]] + zeros[1..];
    }
  }

  lemma OneOfEachRun(cells: seq<WorkItem>, id: nat, junk: WorkItem, run: seq<SystemAction>)
    requires |cells| >= 1
    requires AllowedRun(Start(cells, [id], 1, junk), run)
    ensures
      var s := Final(Start(cells, [id], 1, junk), run);
      && |s.clients| == 1 && InTicketOrder(s.q) && Delivered(s.q)
      && |s.q.receipts| <= |s.q.log| && 0 <= s.q.mem.count
      && (forall t :: 0 <= t < |s.origin| ==> s.origin[t] == 0)
  {
    hide Apply, Next, Stream, NP, Cooks;
    var s0 := Start(cells, [id], 1, junk);
    StartKept(cells, [id], 1, junk);
    SystemRun(s0, run);
    SelfOrderedSystemRun(s0, run);
    OneConsumerRun(s0, run);
    NamesKept(s0, run);
  }

  // End to end. With one producer and one consumer, every run, whatever its timeouts, has received exactly the
  // first items the producer cooked, ids and data, in order, none missing and none twice; the rest of what it
  // cooked is being read, in the ring, or waiting, and at most one item waits.
  lemma ExactlyOnceInOrder(cells: seq<WorkItem>, id: nat, junk: WorkItem, run: seq<SystemAction>)
    requires |cells| >= 1
    requires AllowedRun(Start(cells, [id], 1, junk), run)
    ensures
      var s := Final(Start(cells, [id], 1, junk), run);
      && |s.cooked| == |s.clients| == 1 && |s.q.receipts| <= |Cooks(run, 0)| == s.cooked[0]
      && (forall k :: 0 <= k < |s.q.receipts| ==>
            && s.q.receipts[k].value.id == (300000 * id + k) % 0x1_0000_0000
            && s.q.receipts[k].value.data == Cooks(run, 0)[k])
      && s.cooked[0] == |s.q.receipts| + NC(s.q.consumers, AtCClaimed) + s.q.mem.count + Waiting(s, 0)
      && Waiting(s, 0) <= 1
  {
    hide Stream, NC, Cooks, IsCooked;
    OneOfEachRun(cells, id, junk, run);
    NothingGetsLost(cells, [id], 1, junk, run);
    var s := Final(Start(cells, [id], 1, junk), run);
    AllZero(s.origin);
    forall k | 0 <= k < |s.q.receipts|
      ensures k < |Cooks(run, 0)| && s.q.receipts[k].value == ItemAt(id, Cooks(run, 0), k)
    {
      CookedByOne(id, run, s.origin, k, s.q.log[k]);
    }
  }

  // Shutdown with one producer and one consumer: once neither has a step left to finish, everything the
  // producer cooked has been received, except the item its last pushes did not get rid of.
  lemma DrainedHasDeliveredAll(cells: seq<WorkItem>, id: nat, junk: WorkItem, run: seq<SystemAction>)
    requires |cells| >= 1
    requires AllowedRun(Start(cells, [id], 1, junk), run)
    requires Drained(Final(Start(cells, [id], 1, junk), run).q)
    ensures
      var s := Final(Start(cells, [id], 1, junk), run);
      && |s.clients| == |s.cooked| == 1
      && s.cooked[0] == |s.q.receipts| + (if s.clients[0].valid then 1 else 0)
  {
    var s0 := Start(cells, [id], 1, junk);
    StartKept(cells, [id], 1, junk);
    SystemRun(s0, run);
    NamesKept(s0, run);
    ExactlyOnceInOrder(cells, id, junk, run);
    var s := Final(s0, run);
    DrainedHasNoneLeft(s.q);
    NothingLeftIsIdle(s.q);
    AllIdleCounts(s.q.producers, s.q.consumers);
  }
}
