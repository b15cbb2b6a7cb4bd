/**
 The range-scan load balancer: per-node stream counters and queues of vbuckets
 that still have to be scanned, and the choice of the next vbucket to scan.
 */
module LoadBalancing {
  import opened Options

  type Node = int
  type Vbucket = nat

  /** The largest value of the 16-bit stream counters. */
  const COUNTER_MAX: nat := 0xffff

  /** The running minimum of the selection loop. */
  datatype Choice = Choice(least: int, node: Option<Node>)

  const NOTHING_CHOSEN := Choice(COUNTER_MAX, None)

  /** One turn of the selection loop: a node is taken over only if it is strictly less loaded and has work. */
  function Consider(c: Choice, node: Node, count: int, pending: nat): Choice {
    if count < c.least && pending > 0 then Choice(count, Some(node)) else c
  }

  /** The counters and queues of all nodes. */
  datatype Board = Board(count: map<Node, nat>, queue: map<Node, seq<Vbucket>>) {
    ghost predicate Valid() {
      count.Keys == queue.Keys && forall n <- count :: count[n] <= COUNTER_MAX
    }

    /** A node that the selection loop may take work from. */
    ghost predicate Offers(n: Node)
      requires Valid()
    {
      n in count && queue[n] != [] && count[n] < COUNTER_MAX
    }

    /** n offers work and no node with work is less loaded. */
    ghost predicate LeastLoaded(n: Node)
      requires Valid()
    {
      Offers(n) && forall m <- queue :: queue[m] != [] ==> count[n] <= count[m]
    }

    /** The board after the front vbucket of n has been handed out. */
    function Fetch(n: Node): Board
      requires n in count && n in queue && queue[n] != []
    {
      Board(count[n := count[n] + 1], queue[n := queue[n][1..]])
    }

    /** No node is more than one stream ahead of a node that still has work. */
    ghost predicate Balanced()
      requires Valid()
    {
      forall x <- count, y <- queue :: queue[y] != [] ==> count[x] <= count[y] + 1
    }
  }

  /** order lists every node of the board once: any outcome of the shuffle. */
  ghost predicate Shuffled(order: seq<Node>, nodes: set<Node>) {
    && (forall n :: n in order <==> n in nodes)
    && (forall i, j :: 0 <= i < j < |order| ==> order[i] != order[j])
  }

  /** The vbuckets below k whose active copy is on n, in ascending order. */
  function Share(active: seq<Node>, k: nat, n: Node): seq<Vbucket>
    requires k <= |active|
  {
    if k == 0 then []
    else Share(active, k - 1, n) + (if active[k - 1] == n then [k - 1] else [])
  }

  /** The shares partition the vbuckets: v is queued at its active node, once, and nowhere else. */
  lemma {:induction false} SharesPartition(active: seq<Node>, k: nat, n: Node)
    requires k <= |active|
    ensures forall v: nat :: v in Share(active, k, n) <==> v < k && active[v] == n
    ensures forall i, j :: 0 <= i < j < |Share(active, k, n)| ==> Share(active, k, n)[i] < Share(active, k, n)[j]
  {
    if k > 0 {
      SharesPartition(active, k - 1, n);
      var s := Share(active, k - 1, n);
      assert forall i :: 0 <= i < |s| ==> s[i] in s;
      assert active[k - 1] == n ==> k - 1 in s + [k - 1];
    }
  }

  function QueueOf(byNode: map<Node, seq<Vbucket>>, n: Node): seq<Vbucket> {
    if n in byNode then byNode[n] else []
  }

  /** The first v vbuckets are in the queues of their nodes. */
  ghost predicate Distributed(active: seq<Node>, v: nat, byNode: map<Node, seq<Vbucket>>) {
    && v <= |active|
    && (forall n :: n in byNode <==> n in active[..v])
    && forall n :: QueueOf(byNode, n) == Share(active, v, n)
  }

  lemma DistributeStep(active: seq<Node>, v: nat, byNode: map<Node, seq<Vbucket>>)
    requires Distributed(active, v, byNode) && v < |active|
    ensures Distributed(active, v + 1, byNode[active[v] := QueueOf(byNode, active[v]) + [v]])
  {
    var m := active[v];
    var next := byNode[m := QueueOf(byNode, m) + [v]];
    assert active[..v + 1] == active[..v] + [m];
    forall n ensures QueueOf(next, n) == Share(active, v + 1, n) {
      assert QueueOf(byNode, n) == Share(active, v, n);
    }
  }

  /** Every vbucket goes to the queue of its active node. */
  method Distribute(active: seq<Node>) returns (byNode: map<Node, seq<Vbucket>>)
    ensures forall n :: n in byNode <==> n in active
    ensures forall n <- byNode :: byNode[n] == Share(active, |active|, n)
  {
    byNode := map[];
    for v := 0 to |active|
      invariant Distributed(active, v, byNode)
    {
      DistributeStep(active, v, byNode);
      byNode := byNode[active[v] := QueueOf(byNode, active[v]) + [v]];
    }
    assert active[..|active|] == active;
    forall n <- byNode ensures byNode[n] == Share(active, |active|, n) {
      assert QueueOf(byNode, n) == Share(active, |active|, n);
    }
  }

  class LoadBalancer {
    var count: map<Node, nat>
    var queue: map<Node, seq<Vbucket>>

    ghost function Contents(): Board
      reads this
    {
      Board(count, queue)
    }

    ghost predicate Valid()
      reads this
    {
      Contents().Valid()
    }

    constructor (active: seq<Node>)
      ensures Valid()
      ensures forall n :: n in queue <==> n in active
      ensures forall n <- queue :: queue[n] == Share(active, |active|, n) && count[n] == 0
      ensures Contents().Balanced()
    {
      var byNode := Distribute(active);
      queue := byNode;
      count := map n | n in byNode :: 0;
    }

    /**
     Hands out the front vbucket of a least loaded node with work, the earliest such node in the
     shuffled order; nothing exactly when every node with work already runs 65535 streams.
     */
    method SelectVbucket(order: seq<Node>) returns (vbucket: Option<Vbucket>, ghost chosen: Option<Node>)
      requires Valid() && Shuffled(order, count.Keys)
      modifies this
      ensures Valid()
      ensures vbucket.Some? <==> exists n :: old(Contents()).Offers(n)
      ensures vbucket.None? ==> Contents() == old(Contents())
      ensures vbucket.Some? ==>
                && chosen.Some?
                && old(Contents()).LeastLoaded(chosen.value)
                && vbucket.value == old(queue)[chosen.value][0]
                && Contents() == old(Contents()).Fetch(chosen.value)
      ensures vbucket.Some? ==>
                exists i :: && 0 <= i < |order| && order[i] == chosen.value
                            && forall j :: 0 <= j < i && old(Contents()).Offers(order[j]) ==>
                                             old(count)[chosen.value] < old(count)[order[j]]
    {
      var choice := NOTHING_CHOSEN;
      ghost var at := 0;
      for i := 0 to |order|
        invariant choice.node.None? ==>
                    choice == NOTHING_CHOSEN && forall j :: 0 <= j < i ==> !Contents().Offers(order[j])
        invariant choice.node.Some? ==>
                    && 0 <= at < i && order[at] == choice.node.value
                    && Contents().Offers(order[at]) && choice.least == count[order[at]]
                    && (forall j :: 0 <= j < i && queue[order[j]] != [] ==> choice.least <= count[order[j]])
                    && (forall j :: 0 <= j < at && queue[order[j]] != [] ==> choice.least < count[order[j]])
      {
        assert order[i] in order;
        var next := Consider(choice, order[i], count[order[i]], |queue[order[i]]|);
        if next != choice { at := i; }
        choice := next;
      }
      chosen := choice.node;
      if choice.node.None? {
        assert forall n :: n in order ==> !Contents().Offers(n);
        return None, None;
      }
      var n := choice.node.value;
      assert Contents().LeastLoaded(n) by {
        forall m <- queue | queue[m] != [] ensures count[n] <= count[m] {
          assert m in order;
        }
      }
      vbucket := Some(queue[n][0]);
      count, queue := count[n := count[n] + 1], queue[n := queue[n][1..]];
    }

    /** The counter is decremented modulo 2^16; an unknown node raises std::out_of_range. */
    method NotifyStreamEnded(node: Node) returns (known: bool)
      requires Valid()
      modifies this
      ensures Valid()
      ensures known <==> node in old(count)
      ensures !known ==> Contents() == old(Contents())
      ensures known ==>
                var left := if old(count)[node] == 0 then COUNTER_MAX else old(count)[node] - 1;
                Contents() == old(Contents()).(count := old(count)[node := left])
    {
      known := node in count;
      if known {
        count := count[node := (count[node] + COUNTER_MAX) % (COUNTER_MAX + 1)];
      }
    }

    /** The vbucket goes to the back of its node's queue; an unknown node raises std::out_of_range. */
    method EnqueueVbucket(node: Node, vbucket: Vbucket) returns (known: bool)
      requires Valid()
      modifies this
      ensures Valid()
      ensures known <==> node in old(queue)
      ensures !known ==> Contents() == old(Contents())
      ensures known ==> Contents() == old(Contents()).(queue := old(queue)[node := old(queue)[node] + [vbucket]])
    {
      known := node in queue;
      if known {
        queue := queue[node := queue[node] + [vbucket]];
      }
    }
  }

  /** A run of selections: every step fetches from a least loaded node. */
  ghost predicate Selections(boards: seq<Board>) {
    && boards != [] && boards[0].Valid()
    && forall i :: 0 <= i < |boards| - 1 ==>
                     boards[i].Valid() && exists n :: boards[i].LeastLoaded(n) && boards[i + 1] == boards[i].Fetch(n)
  }

  /** Selecting keeps a balanced board balanced, over every run of selections. */
  lemma {:induction false} SelectionsStayBalanced(boards: seq<Board>)
    requires Selections(boards) && boards[0].Balanced()
    ensures forall b <- boards :: b.Valid() && b.Balanced()
    decreases |boards|
  {
    if |boards| > 1 {
      var n :| boards[0].LeastLoaded(n) && boards[1] == boards[0].Fetch(n);
      assert boards[1].Valid() && boards[1].Balanced();
      SelectionsStayBalanced(boards[1..]);
      assert boards == [boards[0]] + boards[1..];
    }
  }
}
