/** The I/O queues of a session: built node by node, found by queue id, and picked in turn on each node. */
module NumaQueues {
  import opened DivMod
  import opened IoProtocol

  /** Queue ids, per-node counts and node numbers are 16 bits wide. */
  const USHORT: nat := 0x1_0000

  datatype Queue = Queue(id: nat, depth: nat)

  /** How many queues each node gets of the number asked for. */
  function PerNode(asked: nat, nodes: nat): nat
    requires nodes > 0
  {
    (if nodes == 1 then asked else (asked + 1) / nodes) % USHORT
  }

  /** The queue that is built after q others. Its depth is read from the counter that the same call has set to zero. */
  function Built(q: nat): Queue {
    Queue((q + 1) % USHORT, q % USHORT)
  }

  function Row(first: nat, count: nat): (qs: seq<Queue>)
    ensures |qs| == count && forall b :: 0 <= b < count ==> qs[b] == Built(first + b)
  {
    if count == 0 then [] else Row(first, count - 1) + [Built(first + count - 1)]
  }

  /** How many queues the first nodes have together. */
  function Queues(nodes: nat, per: nat): nat {
    if nodes == 0 then 0 else Queues(nodes - 1, per) + per
  }

  function Rows(nodes: nat, per: nat): (rows: seq<seq<Queue>>)
    ensures |rows| == nodes && forall a: nat :: a < nodes ==> rows[a] == Row(Queues(a, per), per)
  {
    if nodes == 0 then [] else Rows(nodes - 1, per) + [Row(Queues(nodes - 1, per), per)]
  }

  /**
   What is built when q queues are asked for: as many on one node; on more nodes at least q + 1 less what does not go
   round, and no more. The exception is a node's share of 65536 or more, which loses every multiple of 65536.
   */
  ghost predicate HowMany(built: nat, asked: nat, nodes: nat) {
    && (nodes == 1 ==> built < USHORT && (asked - built) % USHORT == 0 && (built == asked <==> asked < USHORT))
    && (nodes > 1 ==>
          && built < nodes * USHORT
          && (built <= asked + 1 < built + nodes <==> asked + 1 < nodes * USHORT)
          && exists lost: nat :: Share(built, asked, nodes, lost))
  }

  /** Each node got its share of q + 1 queues but for `lost` multiples of 65536. */
  predicate Share(built: nat, asked: nat, nodes: nat, lost: nat) {
    built + nodes * (lost * USHORT) <= asked + 1 < built + nodes * (lost * USHORT) + nodes
  }

  class Session {
    var numa: seq<seq<Queue>>
    var queueCount: nat
    var perNode: nat
    var tickets: seq<nat>

    constructor ()
      ensures numa == [] && queueCount == 0 && tickets == []
    {
      numa, queueCount, perNode, tickets := [], 0, 0, [];
    }

    ghost predicate Valid()
      reads this
    {
      && |tickets| == |numa|
      && numa == Rows(|numa|, perNode) && queueCount == Queues(|numa|, perNode) && perNode < USHORT && |numa| < USHORT
    }

    /** Builds the queues of every node: how many, HowMany says. roomFor(a) says whether node a's queues can be
     allocated, works(q) whether the q-th queue can be created; the first failure gives everything back. */
    method ConnectControllerIOQueues(nodes: nat, asked: nat, roomFor: nat -> bool, works: nat -> bool)
      returns (ok: bool)
      requires 0 < nodes < USHORT
      modifies this
      ensures Valid()
      ensures ok <==>
                && (forall a: nat :: a < nodes ==> roomFor(a))
                && (forall q: nat :: q < Queues(nodes, PerNode(asked, nodes)) ==> works(q))
      ensures perNode == PerNode(asked, nodes)
      ensures numa == if ok then Rows(nodes, perNode) else []
      ensures queueCount == if ok then Queues(nodes, perNode) else 0
      ensures ok ==> HowMany(queueCount, asked, nodes)
    {
      ok := BuildNodes(nodes, PerNode(asked, nodes), roomFor, works);
      QueuesAre(asked, nodes);
    }

    /** Builds `per` queues on every node. */
    method BuildNodes(nodes: nat, per: nat, roomFor: nat -> bool, works: nat -> bool) returns (ok: bool)
      requires 0 < nodes < USHORT && per < USHORT
      modifies this
      ensures Valid()
      ensures ok <==>
                && (forall a: nat :: a < nodes ==> roomFor(a))
                && (forall q: nat :: q < Queues(nodes, per) ==> works(q))
      ensures perNode == per
      ensures numa == if ok then Rows(nodes, perNode) else []
      ensures queueCount == if ok then Queues(nodes, perNode) else 0
    {
      numa, queueCount, perNode, tickets := [], 0, per, [];
      var qid := 1;
      var node := 0;
      while node < nodes
        invariant node <= nodes && numa == Rows(node, per) && |tickets| == node && perNode == per
        invariant queueCount == Queues(node, per) && qid == (queueCount + 1) % USHORT
        invariant forall a: nat :: a < node ==> roomFor(a)
        invariant forall q: nat :: q < queueCount ==> works(q)
      {
        if !roomFor(node) {
          DisconnectAndReleaseResources();
          return false;
        }
        var built, next, row := BuildRow(per, qid, works);
        if !built {
          NextRow(node, nodes, per);
          DisconnectAndReleaseResources();
          return false;
        }
        qid := next;
        numa, tickets := numa + [row], tickets + [0];
        node := node + 1;
      }
      return true;
    }

    /** Builds one node's queues, up to the first that cannot be created. */
    method BuildRow(per: nat, qid: nat, works: nat -> bool) returns (ok: bool, next: nat, row: seq<Queue>)
      requires qid == (queueCount + 1) % USHORT
      modifies this`queueCount
      ensures row == Row(old(queueCount), |row|) && queueCount == old(queueCount) + |row|
      ensures next == (queueCount + 1) % USHORT
      ensures forall q: nat :: old(queueCount) <= q < queueCount ==> works(q)
      ensures if ok then |row| == per else |row| < per && !works(queueCount)
    {
      row, next := [], qid;
      while |row| < per
        invariant |row| <= per && row == Row(old(queueCount), |row|)
        invariant queueCount == old(queueCount) + |row| && next == (queueCount + 1) % USHORT
        invariant forall q: nat :: old(queueCount) <= q < queueCount ==> works(q)
      {
        if !works(queueCount) { return false, next, row; }
        RowNext(old(queueCount), |row|);
        NextId(queueCount + 1);
        row := row + [Queue(next, queueCount % USHORT)];
        queueCount := queueCount + 1;
        next := (next + 1) % USHORT;
      }
      return true, next, row;
    }

    method DisconnectAndReleaseResources()
      requires perNode < USHORT
      modifies this
      ensures Valid() && numa == [] && queueCount == 0 && perNode == old(perNode)
    {
      numa, queueCount, tickets := [], 0, [];
    }

    /** The node, and the place on it, that the lookup of q reads: 16 bits wide both. */
    function PlaceOf(q: nat): (nat, nat)
      requires q > 0 && perNode > 0
      reads this
    {
      (((q - 1) / perNode) % USHORT, ((q - 1) % perNode) % USHORT)
    }

    /** The queue with id q; q is not 0, which is the admin queue's. Nothing is divided unless a queue was built. */
    function GetIOQFromQId(q: nat): (r: Option<Queue>)
      requires Valid() && q > 0
      reads this
      ensures r.Some? <==> q <= queueCount
    {
      if q > queueCount then None
      else
        SomeQueue(|numa|, perNode);
        InRows(q - 1, |numa|, perNode);
        Some(numa[PlaceOf(q).0][PlaceOf(q).1])
    }

    /** The node's next queue in turn. */
    method GetNextNumaIOQueue(node: nat) returns (index: nat)
      requires Valid() && node < |numa| && perNode > 0
      modifies this`tickets
      ensures Valid() && index < perNode
      ensures index == Pick(old(tickets[node]), perNode)
      ensures tickets == old(tickets)[node := old(tickets[node]) + 1]
    {
      index := And(tickets[node] % USHORT, perNode - 1);
      AndBelow(tickets[node] % USHORT, perNode - 1);
      tickets := tickets[node := tickets[node] + 1];
    }
  }

  lemma {:induction false} QueuesIs(nodes: nat, per: nat)
    ensures Queues(nodes, per) == nodes * per
  {
    if nodes > 0 {
      QueuesIs(nodes - 1, per);
      assert nodes * per == (nodes - 1) * per + per;
    }
  }

  lemma Truncated(per: nat) returns (lost: nat)
    ensures per == per % USHORT + lost * USHORT && (lost == 0 <==> per < USHORT)
  {
    lost := per / USHORT;
  }

  lemma ShareOf(asked: nat, nodes: nat, per: nat, p: nat, lost: nat)
    requires nodes > 0 && per == (asked + 1) / nodes && per == p + lost * USHORT
    ensures Share(nodes * p, asked, nodes, lost)
  {
    assert nodes * per == nodes * p + nodes * (lost * USHORT);
    assert nodes * per <= asked + 1 < nodes * per + nodes;
  }

  lemma NoneLost(built: nat, asked: nat, nodes: nat, per: nat, lost: nat)
    requires nodes > 0 && per == (asked + 1) / nodes && Share(built, asked, nodes, lost)
    requires lost == 0 <==> per < USHORT
    ensures built <= asked + 1 < built + nodes <==> asked + 1 < nodes * USHORT
  {
    if lost == 0 {
      TimesLess(per + 1, USHORT, nodes);
    } else {
      TimesLess(USHORT, per, nodes);
      TimesLess(1, lost * USHORT, nodes);
    }
  }

  lemma SharesAre(asked: nat, nodes: nat)
    requires nodes > 1
    ensures HowMany(nodes * (((asked + 1) / nodes) % USHORT), asked, nodes)
  {
    var per := (asked + 1) / nodes;
    var lost := Truncated(per);
    ShareOf(asked, nodes, per, per % USHORT, lost);
    NoneLost(nodes * (per % USHORT), asked, nodes, per, lost);
    TimesLess(per % USHORT + 1, USHORT, nodes);
  }

  lemma QueuesAre(asked: nat, nodes: nat)
    requires nodes > 0
    ensures HowMany(Queues(nodes, PerNode(asked, nodes)), asked, nodes)
  {
    QueuesIs(nodes, PerNode(asked, nodes));
    if nodes > 1 { SharesAre(asked, nodes); }
  }

  lemma {:induction false} NextRow(node: nat, nodes: nat, per: nat)
    requires node < nodes
    ensures Queues(node, per) + per <= Queues(nodes, per)
    decreases nodes
  {
    if node < nodes - 1 { NextRow(node, nodes - 1, per); }
  }

  lemma SomeQueue(nodes: nat, per: nat)
    ensures Queues(nodes, per) > 0 ==> per > 0
  {
    QueuesIs(nodes, per);
  }

  /** The place of the queue that is built after p others. */
  lemma Place(p: nat, nodes: nat, per: nat)
    requires per > 0 && p < Queues(nodes, per)
    ensures p / per < nodes && p % per < per && Queues(p / per, per) + p % per == p
  {
    QueuesIs(nodes, per);
    QueuesIs(p / per, per);
    if p / per >= nodes { TimesLess(nodes, p / per, per); }
  }

  lemma InRows(p: nat, nodes: nat, per: nat)
    requires 0 < per < USHORT && nodes < USHORT && p < Queues(nodes, per)
    ensures (p / per) % USHORT < nodes && (p % per) % USHORT < |Rows(nodes, per)[(p / per) % USHORT]|
  {
    Place(p, nodes, per);
    Narrow(p / per);
    Narrow(p % per);
    assert Rows(nodes, per)[p / per] == Row(Queues(p / per, per), per);
  }

  lemma RowNext(first: nat, count: nat)
    ensures Row(first, count) + [Built(first + count)] == Row(first, count + 1)
  {
  }

  lemma NextId(a: nat)
    ensures (a % USHORT + 1) % USHORT == (a + 1) % USHORT
  {
  }

  // ---- Queue ids ----

  lemma RowsAt(nodes: nat, per: nat, a: nat, b: nat)
    requires a < nodes && b < per
    ensures Rows(nodes, per)[a][b] == Built(Queues(a, per) + b)
  {
    assert Rows(nodes, per)[a] == Row(Queues(a, per), per);
  }

  lemma Narrow(a: nat)
    requires a < USHORT
    ensures a % USHORT == a
  {
  }

  /** The lookup finds the queue that was built q-th: its id is q and its depth q - 1, with 16 bits each. */
  lemma LookupFindsBuilt(s: Session, q: nat)
    requires s.Valid() && 0 < q <= s.queueCount
    ensures s.GetIOQFromQId(q) == Some(Built(q - 1))
    ensures Built(q - 1).id == q % USHORT && Built(q - 1).depth == (q - 1) % USHORT
  {
    var nodes, per := |s.numa|, s.perNode;
    SomeQueue(nodes, per);
    Place(q - 1, nodes, per);
    var a, b := (q - 1) / per, (q - 1) % per;
    Narrow(a);
    Narrow(b);
    RowsAt(nodes, per, a, b);
  }

  /** The id finds the queue that has it. */
  ghost predicate Finds(s: Session, q: nat)
    requires s.Valid() && q > 0
    reads s
  {
    s.GetIOQFromQId(q).Some? && s.GetIOQFromQId(q).value.id == q
  }

  lemma EarlyFinds(s: Session, q: nat)
    requires s.Valid() && 0 < q <= s.queueCount && q < USHORT
    ensures Finds(s, q)
  {
    LookupFindsBuilt(s, q);
  }

  lemma WrappedDoesNot(s: Session)
    requires s.Valid() && USHORT <= s.queueCount
    ensures !Finds(s, USHORT)
  {
    LookupFindsBuilt(s, USHORT);
  }

  /** Every id from 1 to the number of queues finds the queue that has it, exactly if the ids have not wrapped round. */
  lemma LookupFindsId(s: Session)
    requires s.Valid()
    ensures (forall q: nat :: 0 < q <= s.queueCount ==> Finds(s, q)) <==> s.queueCount < USHORT
  {
    if s.queueCount < USHORT {
      forall q: nat | 0 < q <= s.queueCount ensures Finds(s, q) { EarlyFinds(s, q); }
    } else {
      WrappedDoesNot(s);
    }
  }

  /** Different ids read different places. */
  lemma DifferentPlaces(s: Session, p: nat, q: nat)
    requires s.Valid() && 0 < p <= s.queueCount && 0 < q <= s.queueCount && p != q
    ensures s.perNode > 0 && s.PlaceOf(p) != s.PlaceOf(q)
  {
    SomeQueue(|s.numa|, s.perNode);
    Place(p - 1, |s.numa|, s.perNode);
    Place(q - 1, |s.numa|, s.perNode);
    Narrow((p - 1) / s.perNode);
    Narrow((p - 1) % s.perNode);
    Narrow((q - 1) / s.perNode);
    Narrow((q - 1) % s.perNode);
  }

  // ---- Round robin ----

  /** The bitwise and of two natural numbers. */
  function And(a: nat, b: nat): nat {
    if a == 0 || b == 0 then 0 else 2 * And(a / 2, b / 2) + (if a % 2 == 1 && b % 2 == 1 then 1 else 0)
  }

  function Pick(ticket: nat, per: nat): nat
    requires per > 0
  {
    And(ticket % USHORT, per - 1)
  }

  lemma {:induction false} AndBelow(a: nat, b: nat)
    ensures And(a, b) <= b
  {
    if a > 0 && b > 0 { AndBelow(a / 2, b / 2); }
  }

  /** Bit i of a number. */
  predicate Bit(a: nat, i: nat) {
    if i == 0 then a % 2 == 1 else Bit(a / 2, i - 1)
  }

  lemma AndStep(a: nat, b: nat)
    ensures And(a, b) / 2 == And(a / 2, b / 2) && (And(a, b) % 2 == 1 <==> a % 2 == 1 && b % 2 == 1)
  {
  }

  lemma {:induction false} AndBits(a: nat, b: nat, i: nat)
    ensures Bit(And(a, b), i) <==> Bit(a, i) && Bit(b, i)
    decreases i
  {
    AndStep(a, b);
    if i > 0 { AndBits(a / 2, b / 2, i - 1); }
  }

  /** The number has exactly the bits that a and b share. */
  ghost predicate Shared(j: nat, a: nat, b: nat) {
    forall i: nat :: Bit(j, i) <==> Bit(a, i) && Bit(b, i)
  }

  /** The number has no bit that the mask lacks. */
  ghost predicate Under(j: nat, mask: nat) {
    forall i: nat :: Bit(j, i) ==> Bit(mask, i)
  }

  lemma {:induction false} SameBits(a: nat, b: nat)
    requires forall i: nat :: Bit(a, i) <==> Bit(b, i)
    ensures a == b
    decreases a + b
  {
    assert Bit(a, 0) <==> Bit(b, 0);
    if a + b > 0 {
      forall i: nat ensures Bit(a / 2, i) <==> Bit(b / 2, i) { assert Bit(a, i + 1) <==> Bit(b, i + 1); }
      SameBits(a / 2, b / 2);
    }
  }

  lemma AndShared(a: nat, b: nat)
    ensures Shared(And(a, b), a, b)
  {
    forall i: nat ensures Bit(And(a, b), i) <==> Bit(a, i) && Bit(b, i) { AndBits(a, b, i); }
  }

  lemma SharedIs(j: nat, a: nat, b: nat)
    requires Shared(j, a, b)
    ensures j == And(a, b)
  {
    AndShared(a, b);
    SameBits(j, And(a, b));
  }

  /** The place picked has exactly the bits that the low 16 of the ticket and the number of queues less one share. */
  lemma PickBits(ticket: nat, per: nat, j: nat)
    requires 0 < per
    ensures j == Pick(ticket, per) <==> Shared(j, ticket % USHORT, per - 1)
  {
    AndShared(ticket % USHORT, per - 1);
    if Shared(j, ticket % USHORT, per - 1) { SharedIs(j, ticket % USHORT, per - 1); }
  }

  lemma UnderIsPicked(per: nat, j: nat)
    requires 0 < per < USHORT && Under(j, per - 1)
    ensures Picked(j, per)
  {
    SharedIs(j, j, per - 1);
    AndBelow(j, per - 1);
    assert Pick(j, per) == j;
  }

  /** So, whatever the number of queues, those are picked whose place has no bit that the mask lacks. */
  lemma PickedIff(per: nat, j: nat)
    requires 0 < per < USHORT
    ensures Picked(j, per) <==> Under(j, per - 1)
  {
    if Picked(j, per) {
      var ticket: nat :| Pick(ticket, per) == j;
      AndShared(ticket % USHORT, per - 1);
    }
    if Under(j, per - 1) { UnderIsPicked(per, j); }
  }

  predicate PowerOfTwo(p: nat) {
    p == 1 || (p > 1 && p % 2 == 0 && PowerOfTwo(p / 2))
  }

  lemma HalfMod(a: nat, h: nat)
    requires h > 0
    ensures a % (2 * h) == 2 * ((a / 2) % h) + a % 2
  {
    var q, m := (a / 2) / h, (a / 2) % h;
    assert a / 2 == q * h + m;
    assert a == q * (2 * h) + (2 * m + a % 2);
    ModIs(a, 2 * h, q, 2 * m + a % 2);
  }

  lemma {:induction false} AndMask(a: nat, p: nat)
    requires PowerOfTwo(p)
    ensures And(a, p - 1) == a % p
  {
    if p > 1 {
      AndMask(a / 2, p / 2);
      HalfMod(a, p / 2);
      assert (p - 1) / 2 == p / 2 - 1 && (p - 1) % 2 == 1;
    }
  }

  lemma Halves(a: nat, g: nat, h: nat)
    requires g > 0 && h > 0 && ((a / 2) % g) % h == (a / 2) % h
    ensures (a % (2 * g)) % (2 * h) == a % (2 * h)
  {
    HalfMod(a, g);
    HalfMod(a, h);
    var b := a % (2 * g);
    assert b / 2 == (a / 2) % g && b % 2 == a % 2;
    HalfMod(b, h);
  }

  lemma {:induction false} ModMod(a: nat, n: nat, p: nat)
    requires PowerOfTwo(p) && PowerOfTwo(n) && p <= n
    ensures (a % n) % p == a % p
  {
    if p > 1 {
      ModMod(a / 2, n / 2, p / 2);
      Halves(a, n / 2, p / 2);
    }
  }

  /** With a power of two on each node, the picks go round. */
  lemma PicksGoRound(ticket: nat, per: nat)
    requires PowerOfTwo(per) && per < USHORT
    ensures Pick(ticket, per) == ticket % per
  {
    AndMask(ticket % USHORT, per);
    assert PowerOfTwo(0x10) && PowerOfTwo(0x100) && PowerOfTwo(0x1000);
    assert PowerOfTwo(0x2000) && PowerOfTwo(0x8000);
    ModMod(ticket, USHORT, per);
  }

  /** How many of the m picks from the given ticket on go to queue j. */
  function Load(ticket: nat, m: nat, j: nat, per: nat): nat
    requires per > 0
  {
    if m == 0 then 0 else Load(ticket, m - 1, j, per) + (if Pick(ticket + m - 1, per) == j then 1 else 0)
  }

  /** How far queue j is ahead of the ticket. */
  function Ahead(ticket: nat, j: nat, per: nat): nat
    requires j < per
  {
    if ticket % per <= j then j - ticket % per else j + per - ticket % per
  }

  /** The queue gets one pick of every round, and one more if the last round reaches it. */
  lemma {:induction false} LoadIs(ticket: nat, m: nat, j: nat, per: nat)
    requires PowerOfTwo(per) && per < USHORT && j < per
    ensures Load(ticket, m, j, per) == m / per + (if Ahead(ticket, j, per) < m % per then 1 else 0)
  {
    if m == 0 {
      ModIs(0, per, 0, 0);
    } else {
      LoadIs(ticket, m - 1, j, per);
      PicksGoRound(ticket + m - 1, per);
      AddMod(ticket, m - 1, per);
      NextMod(m - 1, per);
    }
  }

  /** Over any run of picks on a node with a power of two of queues, no queue gets two more than another. */
  lemma Balanced(ticket: nat, m: nat, j: nat, k: nat, per: nat)
    requires PowerOfTwo(per) && per < USHORT && j < per && k < per
    ensures Load(ticket, m, j, per) <= Load(ticket, m, k, per) + 1
  {
    LoadIs(ticket, m, j, per);
    LoadIs(ticket, m, k, per);
  }

  ghost predicate Masked(j: nat, mask: nat) {
    exists a: nat :: And(a, mask) == j
  }

  /** Some ticket picks queue j. */
  ghost predicate Picked(j: nat, per: nat)
    requires per > 0
  {
    exists ticket: nat :: Pick(ticket, per) == j
  }

  lemma {:induction false} SomeNeverMasked(per: nat) returns (j: nat)
    requires per > 0 && !PowerOfTwo(per)
    ensures j < per && !Masked(j, per - 1)
  {
    var mask := per - 1;
    if per % 2 == 1 {
      j := 1;
      forall a: nat ensures And(a, mask) != j { AndStep(a, mask); }
    } else {
      var h := SomeNeverMasked(per / 2);
      j := 2 * h;
      forall a: nat ensures And(a, mask) != j {
        assert mask / 2 == per / 2 - 1;
        assert And(a / 2, mask / 2) != h;
        AndStep(a, mask);
      }
    }
  }

  /** On a node with any other number of queues, some queue is never picked: picks are fair exactly for
   powers of two. */
  lemma FairIff(per: nat)
    requires 0 < per < USHORT
    ensures PowerOfTwo(per) <==> forall j: nat :: j < per ==> Picked(j, per)
  {
    if PowerOfTwo(per) {
      forall j: nat | j < per ensures Picked(j, per) {
        PicksGoRound(j, per);
        ModIs(j, per, 0, j);
        assert Pick(j, per) == j;
      }
    } else {
      var j := SomeNeverMasked(per);
      assert !Picked(j, per);
    }
  }
}
