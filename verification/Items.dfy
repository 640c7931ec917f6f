/** The work items that travel through the queues, and the ids their producers give them. */
module Items {
  import opened Arithmetic

  const MAX_WORK_ITEM_LEN := 512
  const ITEM_STARTING_ID_EACH_PRODUCER := 300000

  datatype WorkItem = WorkItem(id: nat, data: seq<char>)

  // The id of the k-th item (counted from 0) that the producer numbered `producer` cooks.
  function IdAt(producer: nat, k: nat): nat {
    (ITEM_STARTING_ID_EACH_PRODUCER * producer + k) % UINT_RANGE
  }

  lemma NextId(producer: nat, k: nat)
    ensures (IdAt(producer, k) + 1) % UINT_RANGE == IdAt(producer, k + 1)
  {
  }

  // How far producer q's first id lies ahead of producer p's, counted round the 32-bit range.
  function Ahead(p: nat, q: nat): (d: nat)
    ensures d < UINT_RANGE
  {
    (ITEM_STARTING_ID_EACH_PRODUCER * q - ITEM_STARTING_ID_EACH_PRODUCER * p) % UINT_RANGE
  }

  ghost predicate DisjointIds(p: nat, q: nat, n: nat) {
    forall k: nat, l: nat :: k < n && l < n ==> IdAt(p, k) != IdAt(q, l)
  }

  lemma SameIdIff(p: nat, q: nat, k: nat, l: nat)
    ensures IdAt(p, k) == IdAt(q, l) <==> (k - l - Ahead(p, q)) % UINT_RANGE == 0
  {
    var a, b := ITEM_STARTING_ID_EACH_PRODUCER * p + k, ITEM_STARTING_ID_EACH_PRODUCER * q + l;
    var apart := ITEM_STARTING_ID_EACH_PRODUCER * q - ITEM_STARTING_ID_EACH_PRODUCER * p;
    SameRemainder(a, b, UINT_RANGE);
    ModShift(a - b, apart / UINT_RANGE, UINT_RANGE);
    assert UINT_RANGE * (apart / UINT_RANGE) + (a - b) == k - l - Ahead(p, q);
  }

  // Two producers give out no common id precisely as long as neither has cooked its way round to where the
  // other one began.
  lemma DisjointIff(p: nat, q: nat, n: nat)
    ensures DisjointIds(p, q, n) <==> n == 0 || n <= Ahead(p, q) <= UINT_RANGE - n
  {
    hide IdAt, Ahead;
    var d := Ahead(p, q);
    if n > d {
      SameIdIff(p, q, d, 0);
    } else if n > UINT_RANGE - d {
      SameIdIff(p, q, 0, UINT_RANGE - d);
    } else {
      forall k: nat, l: nat | k < n && l < n
        ensures IdAt(p, k) != IdAt(q, l)
      {
        SameIdIff(p, q, k, l);
      }
    }
  }

  // Producers with neighbouring numbers share no id precisely as long as each has cooked at most 300000 items.
  lemma NeighboursStayDisjoint(p: nat, n: nat)
    ensures DisjointIds(p, p + 1, n) <==> n <= ITEM_STARTING_ID_EACH_PRODUCER
  {
    DisjointIff(p, p + 1, n);
  }

  // The greatest distance between producer numbers at which the first blocks of ids stay apart.
  const LAST_APART := 14315

  // The next distance wraps round onto the first block.
  lemma BlocksAreDisjoint(p: nat, q: nat)
    requires p < q <= p + LAST_APART + 1
    ensures DisjointIds(p, q, ITEM_STARTING_ID_EACH_PRODUCER) <==> q - p <= LAST_APART
  {
    DisjointIff(p, q, ITEM_STARTING_ID_EACH_PRODUCER);
  }
}
