/** Dependency graphs: paths, cycles and topological orders. */
module DepGraph {
  import opened Messages

  /** The nodes by id, the last definition of a repeated id winning. */
  function ById(nodes: seq<Node>): (g: map<string, Node>)
    ensures forall id :: id in g <==> id in Ids(nodes)
    ensures forall id :: id in g ==> g[id].id == id && g[id] in nodes
  {
    map id | id in Ids(nodes) :: nodes[LastIndex(nodes, id)]
  }

  function LastIndex(nodes: seq<Node>, id: string): (i: nat)
    requires id in Ids(nodes)
    ensures i < |nodes| && nodes[i].id == id
    ensures forall k :: i < k < |nodes| ==> nodes[k].id != id
  {
    if nodes[|nodes| - 1].id == id then |nodes| - 1
    else
      assert Ids(nodes[..|nodes| - 1]) == Ids(nodes)[..|nodes| - 1];
      LastIndex(nodes[..|nodes| - 1], id)
  }

  /** The node is a definition of its id behind which no other stands. */
  predicate LastDefinition(nodes: seq<Node>, n: Node) {
    exists i :: 0 <= i < |nodes| && nodes[i] == n && forall k :: i < k < |nodes| ==> nodes[k].id != n.id
  }

  /** The table holds the last definition of every id. */
  lemma ByIdIsLast(nodes: seq<Node>, i: nat)
    requires i < |nodes| && forall k :: i < k < |nodes| ==> nodes[k].id != nodes[i].id
    ensures nodes[i].id in ById(nodes) && ById(nodes)[nodes[i].id] == nodes[i]
  {
    var id := nodes[i].id;
    assert Ids(nodes)[i] == id;
    var j := LastIndex(nodes, id);
    assert !(i < j) && !(j < i);
  }

  lemma TableHoldsLast(nodes: seq<Node>, id: string)
    requires id in ById(nodes)
    ensures LastDefinition(nodes, ById(nodes)[id])
  {
    var i := LastIndex(nodes, id);
    assert nodes[i] == ById(nodes)[id];
  }

  /** With no repeated id the table holds exactly the listed nodes. */
  lemma {:induction false} ByIdDistinct(nodes: seq<Node>)
    requires Distinct(Ids(nodes))
    ensures forall n :: n in nodes ==> n.id in ById(nodes) && ById(nodes)[n.id] == n
  {
    forall n | n in nodes
      ensures n.id in ById(nodes) && ById(nodes)[n.id] == n
    {
      var ids, g := Ids(nodes), ById(nodes);
      var i :| 0 <= i < |nodes| && nodes[i] == n;
      assert ids[i] == n.id;
      var j :| 0 <= j < |nodes| && nodes[j] == g[n.id];
      assert ids[j] == n.id;
    }
  }

  /** `a` is defined and lists `b` among its dependencies. */
  predicate Edge(g: map<string, Node>, a: string, b: string) {
    a in g && b in g[a].dependsOn
  }

  /** Each element of `p` depends on the next one. */
  predicate Path(g: map<string, Node>, p: seq<string>) {
    |p| >= 1 && forall i :: 0 <= i < |p| - 1 ==> Edge(g, p[i], p[i + 1])
  }

  predicate Cycle(g: map<string, Node>, p: seq<string>) {
    |p| >= 2 && Path(g, p) && p[0] == p[|p| - 1]
  }

  ghost predicate Acyclic(g: map<string, Node>) {
    forall p :: !Cycle(g, p)
  }

  /** Every dependency of a defined node is defined. */
  ghost predicate Closed(g: map<string, Node>) {
    forall a, b :: Edge(g, a, b) ==> b in g
  }

  /** The id stands before position `i`. */
  predicate StandsBefore(order: seq<Node>, i: nat, id: string)
    requires i <= |order|
  {
    exists j :: 0 <= j < i && order[j].id == id
  }

  /** Every dependency of an element stands before it. */
  ghost predicate DepsFirst(order: seq<Node>) {
    forall i, d :: 0 <= i < |order| && d in order[i].dependsOn ==> StandsBefore(order, i, d)
  }

  /** Every node is stored under its own id. */
  predicate Keyed(g: map<string, Node>) {
    forall id :: id in g ==> g[id].id == id
  }

  /** Each defined id once, as the node the table holds, after all its dependencies. */
  ghost predicate TopoOrder(g: map<string, Node>, order: seq<Node>) {
    && Keyed(g)
    && |order| == |g|
    && (forall n :: n in order ==> n.id in g && g[n.id] == n)
    && (forall id :: id in g ==> g[id] in order)
    && DepsFirst(order)
  }

  /** Every dependency is defined and ranks strictly below its dependents. */
  ghost predicate Ranked(g: map<string, Node>, rank: map<string, nat>) {
    rank.Keys == g.Keys && forall a, b :: Edge(g, a, b) ==> b in g && rank[b] < rank[a]
  }

  /** The positions in a topological order rank the graph. */
  lemma RankOfOrder(g: map<string, Node>, order: seq<Node>) returns (rank: map<string, nat>)
    requires TopoOrder(g, order)
    ensures Ranked(g, rank) && forall id :: id in rank ==> rank[id] < |g|
  {
    rank := map id | id in g :: Position(g, order, id);
    forall a, b | Edge(g, a, b)
      ensures b in g && rank[b] < rank[a]
    {
      var j := DepPosition(g, order, rank[a], b);
      OrderInjective(g, order, j, rank[b]);
    }
  }

  /** Where a topological order has a defined id. */
  ghost function Position(g: map<string, Node>, order: seq<Node>, id: string): (i: nat)
    requires TopoOrder(g, order) && id in g
    ensures i < |order| && order[i] == g[id] && order[i].id == id
  {
    assert g[id] in order;
    var i :| 0 <= i < |order| && order[i] == g[id];
    i
  }

  /** Position of a dependency in a topological order. */
  lemma DepPosition(g: map<string, Node>, order: seq<Node>, i: nat, d: string) returns (j: nat)
    requires TopoOrder(g, order) && i < |order| && d in order[i].dependsOn
    ensures j < i && order[j].id == d && d in g
  {
    assert StandsBefore(order, i, d);
    j :| 0 <= j < i && order[j].id == d;
    assert order[j] in order;
  }

  /** No id stands at two positions of an order. */
  lemma OrderInjective(g: map<string, Node>, order: seq<Node>, i: nat, j: nat)
    requires TopoOrder(g, order) && i < |order| && j < |order| && order[i].id == order[j].id
    ensures i == j
  {
    if i != j {
      var rest := order[..i] + order[i + 1..];
      forall id | id in g
        ensures id in ToSet(Ids(rest))
      {
        var k := Position(g, order, id);
        var m := if k == i then j else k;
        var p := if m < i then m else m - 1;
        assert rest[p] == order[m] && Ids(rest)[p] == id;
      }
      assert g.Keys <= ToSet(Ids(rest));
      ToSetSize(Ids(rest));
      SubsetSize(g.Keys, ToSet(Ids(rest)));
      assert false;
    }
  }

  lemma {:induction false} ToSetSize(ids: seq<string>)
    ensures |ToSet(ids)| <= |ids|
  {
    if ids != [] {
      var last := |ids| - 1;
      ToSetSize(ids[..last]);
      assert ToSet(ids) == ToSet(ids[..last]) + {ids[last]};
    }
  }

  lemma SubsetSize<T>(a: set<T>, b: set<T>)
    requires a <= b
    ensures |a| <= |b|
  {
    assert b == a + (b - a);
  }

  lemma {:induction false} DistinctSize(ids: seq<string>)
    requires Distinct(ids)
    ensures |ToSet(ids)| == |ids|
  {
    if ids != [] {
      var last := |ids| - 1;
      DistinctSize(ids[..last]);
      assert ToSet(ids) == ToSet(ids[..last]) + {ids[last]};
    }
  }

  lemma PathTail(g: map<string, Node>, p: seq<string>)
    requires Path(g, p) && |p| >= 2
    ensures Path(g, p[1..])
  {
    forall i | 0 <= i < |p[1..]| - 1
      ensures Edge(g, p[1..][i], p[1..][i + 1])
    {
      assert Edge(g, p[i + 1], p[i + 2]);
    }
  }

  lemma PathCons(g: map<string, Node>, id: string, p: seq<string>)
    requires Path(g, p) && Edge(g, id, p[0])
    ensures Path(g, [id] + p)
  {
    var q := [id] + p;
    forall i | 0 <= i < |q| - 1
      ensures Edge(g, q[i], q[i + 1])
    {
      assert i > 0 ==> Edge(g, p[i - 1], p[i]);
    }
  }

  /** Along a path the position in a topological order goes strictly down. */
  lemma {:induction false} PathGoesDown(g: map<string, Node>, order: seq<Node>, p: seq<string>, i: nat)
    returns (j: nat)
    requires TopoOrder(g, order) && Path(g, p)
    requires i < |order| && order[i].id == p[0]
    ensures j + |p| - 1 <= i && order[j].id == p[|p| - 1]
    decreases |p|
  {
    if |p| == 1 {
      j := i;
    } else {
      assert Edge(g, p[0], p[1]);
      assert order[i] in order;
      var k := DepPosition(g, order, i, p[1]);
      PathTail(g, p);
      j := PathGoesDown(g, order, p[1..], k);
    }
  }

  /** A graph with a topological order has no cycle and no undefined dependency. */
  lemma {:induction false} OrderedIsClosedAcyclic(g: map<string, Node>, order: seq<Node>)
    requires TopoOrder(g, order)
    ensures Closed(g) && Acyclic(g)
  {
    forall a, b | Edge(g, a, b)
      ensures b in g
    {
      var i := Position(g, order, a);
      var k := DepPosition(g, order, i, b);
    }
    forall p
      ensures !Cycle(g, p)
    {
      if Cycle(g, p) {
        assert Edge(g, p[0], p[1]);
        var i := Position(g, order, p[0]);
        var j := PathGoesDown(g, order, p, i);
        OrderInjective(g, order, i, j);
        assert false;
      }
    }
  }
}
