/** The depth-first topological sort of a pipeline specification. */
module TopoSort {
  import opened Messages
  import opened DepGraph

  datatype SortError = CycleAt(id: string) | UnknownNode(id: string)

  /** The variables the recursive closure updates. */
  datatype Marks = Marks(visited: set<string>, inStack: set<string>, sorted: seq<Node>)

  const NO_MARKS := Marks({}, {}, [])

  /** One call of `visit`. */
  function VisitFrom(g: map<string, Node>, m: Marks, id: string): (r: Result<Marks, SortError>)
    ensures r.Ok? ==> id in r.value.visited
    ensures r.Ok? ==> m.visited <= r.value.visited && r.value.inStack == m.inStack
    decreases g.Keys - m.visited - m.inStack, 0
  {
    if id in m.visited then Ok(m)
    else if id in m.inStack then Err(CycleAt(id))
    else if id !in g then Err(UnknownNode(id))
    else
      assert id in g.Keys - m.visited - m.inStack;
      var inner := m.(inStack := m.inStack + {id});
      assert g.Keys - inner.visited - inner.inStack < g.Keys - m.visited - m.inStack;
      match VisitAll(g, inner, g[id].dependsOn)
      case Err(e) => Err(e)
      case Ok(d) =>
        assert d.inStack - {id} == m.inStack;
        Ok(Marks(d.visited + {id}, d.inStack - {id}, d.sorted + [g[id]]))
  }

  /** The loop that visits a list of ids and stops at the first error. */
  function VisitAll(g: map<string, Node>, m: Marks, ids: seq<string>): (r: Result<Marks, SortError>)
    ensures r.Ok? ==> forall id :: id in ids ==> id in r.value.visited
    ensures r.Ok? ==> m.visited <= r.value.visited && r.value.inStack == m.inStack
    decreases g.Keys - m.visited - m.inStack, 1, |ids|
  {
    if ids == [] then Ok(m)
    else
      match VisitFrom(g, m, ids[0])
      case Err(e) => Err(e)
      case Ok(first) =>
        assert g.Keys - first.visited - first.inStack <= g.Keys - m.visited - m.inStack;
        VisitAll(g, first, ids[1..])
  }

  function Sort(nodes: seq<Node>): Result<seq<Node>, SortError> {
    match VisitAll(ById(nodes), NO_MARKS, Ids(nodes))
    case Err(e) => Err(e)
    case Ok(m) => Ok(m.sorted)
  }

  // ---------------------------------------------------------------------------
  // The sorted prefix
  // ---------------------------------------------------------------------------

  /** `sorted` lists the visited ids once each, every one after its dependencies. */
  ghost predicate MarksOk(g: map<string, Node>, m: Marks) {
    && m.visited !! m.inStack
    && Distinct(Ids(m.sorted))
    && (forall id :: id in m.visited <==> id in Ids(m.sorted))
    && (forall n :: n in m.sorted ==> n.id in g && g[n.id] == n)
    && DepsFirst(m.sorted)
  }

  lemma {:induction false} VisitKeepsMarks(g: map<string, Node>, m: Marks, id: string)
    requires Keyed(g) && MarksOk(g, m)
    ensures VisitFrom(g, m, id).Ok? ==> MarksOk(g, VisitFrom(g, m, id).value)
    decreases g.Keys - m.visited - m.inStack, 0
  {
    if id !in m.visited && id !in m.inStack && id in g {
      assert id in g.Keys - m.visited - m.inStack;
      var inner := m.(inStack := m.inStack + {id});
      assert g.Keys - inner.visited - inner.inStack < g.Keys - m.visited - m.inStack;
      VisitAllKeepsMarks(g, inner, g[id].dependsOn);
      var r := VisitAll(g, inner, g[id].dependsOn);
      if r.Ok? {
        AppendKeepsMarks(g, r.value, id);
      }
    }
  }

  lemma {:induction false} VisitAllKeepsMarks(g: map<string, Node>, m: Marks, ids: seq<string>)
    requires Keyed(g) && MarksOk(g, m)
    ensures VisitAll(g, m, ids).Ok? ==> MarksOk(g, VisitAll(g, m, ids).value)
    decreases g.Keys - m.visited - m.inStack, 1, |ids|
  {
    if ids != [] {
      VisitKeepsMarks(g, m, ids[0]);
      var r := VisitFrom(g, m, ids[0]);
      if r.Ok? {
        assert g.Keys - r.value.visited - r.value.inStack <= g.Keys - m.visited - m.inStack;
        VisitAllKeepsMarks(g, r.value, ids[1..]);
      }
    }
  }

  /** Appending a node whose dependencies are all visited. */
  lemma AppendKeepsMarks(g: map<string, Node>, d: Marks, id: string)
    requires Keyed(g) && MarksOk(g, d)
    requires id in g && id in d.inStack
    requires forall dep :: dep in g[id].dependsOn ==> dep in d.visited
    ensures MarksOk(g, Marks(d.visited + {id}, d.inStack - {id}, d.sorted + [g[id]]))
  {
    var sorted := d.sorted + [g[id]];
    assert Ids(sorted) == Ids(d.sorted) + [id];
    forall i, dep | 0 <= i < |sorted| && dep in sorted[i].dependsOn
      ensures StandsBefore(sorted, i, dep)
    {
      if i < |d.sorted| {
        assert StandsBefore(d.sorted, i, dep);
        var j :| 0 <= j < i && d.sorted[j].id == dep;
        assert sorted[j].id == dep;
      } else {
        var j :| 0 <= j < |d.sorted| && Ids(d.sorted)[j] == dep;
        assert sorted[j].id == dep;
      }
    }
  }

  // ---------------------------------------------------------------------------
  // What an error means
  // ---------------------------------------------------------------------------

  /** The call stack: each visited id was reached from the one below it. */
  ghost predicate OnStack(g: map<string, Node>, m: Marks, stack: seq<string>, id: string) {
    && (forall x :: x in m.inStack <==> x in stack)
    && Path(g, stack + [id])
  }

  /** A cycle error names an id on a cycle, an unknown-node error an undefined dependency. */
  ghost predicate Justified(g: map<string, Node>, e: SortError) {
    match e
    case CycleAt(id) => exists p :: Cycle(g, p) && p[0] == id
    case UnknownNode(id) => id !in g && exists a :: Edge(g, a, id)
  }

  lemma {:induction false} VisitErrorJustified(g: map<string, Node>, m: Marks, stack: seq<string>, id: string)
    requires OnStack(g, m, stack, id) && (stack == [] ==> id in g)
    ensures VisitFrom(g, m, id).Err? ==> Justified(g, VisitFrom(g, m, id).error)
    decreases g.Keys - m.visited - m.inStack, 0
  {
    if id in m.visited {
    } else if id in m.inStack {
      var k :| 0 <= k < |stack| && stack[k] == id;
      var p := (stack + [id])[k..];
      forall i | 0 <= i < |p| - 1
        ensures Edge(g, p[i], p[i + 1])
      {
        assert Edge(g, (stack + [id])[k + i], (stack + [id])[k + i + 1]);
      }
      assert Cycle(g, p);
    } else if id !in g {
      assert Edge(g, (stack + [id])[|stack| - 1], (stack + [id])[|stack|]);
    } else {
      assert id in g.Keys - m.visited - m.inStack;
      var inner := m.(inStack := m.inStack + {id});
      assert g.Keys - inner.visited - inner.inStack < g.Keys - m.visited - m.inStack;
      VisitDepsErrorJustified(g, inner, stack + [id], g[id].dependsOn);
    }
  }

  /** The loop over the dependencies of the id on top of the stack. */
  lemma {:induction false} VisitDepsErrorJustified(g: map<string, Node>, m: Marks, stack: seq<string>, deps: seq<string>)
    requires (forall x :: x in m.inStack <==> x in stack) && Path(g, stack)
    requires stack[|stack| - 1] in g
    requires forall d :: d in deps ==> d in g[stack[|stack| - 1]].dependsOn
    ensures VisitAll(g, m, deps).Err? ==> Justified(g, VisitAll(g, m, deps).error)
    decreases g.Keys - m.visited - m.inStack, 1, |deps|
  {
    if deps != [] {
      assert deps[0] in deps && forall d :: d in deps[1..] ==> d in deps;
      var p := stack + [deps[0]];
      forall i | 0 <= i < |p| - 1
        ensures Edge(g, p[i], p[i + 1])
      {
        assert i < |stack| - 1 ==> Edge(g, stack[i], stack[i + 1]);
      }
      VisitErrorJustified(g, m, stack, deps[0]);
      var r := VisitFrom(g, m, deps[0]);
      if r.Ok? {
        assert g.Keys - r.value.visited - r.value.inStack <= g.Keys - m.visited - m.inStack;
        VisitDepsErrorJustified(g, r.value, stack, deps[1..]);
      }
    }
  }

  /** The outer loop starts every visit from an empty stack. */
  lemma {:induction false} VisitRootsErrorJustified(g: map<string, Node>, m: Marks, ids: seq<string>)
    requires m.inStack == {} && forall id :: id in ids ==> id in g
    ensures VisitAll(g, m, ids).Err? ==> Justified(g, VisitAll(g, m, ids).error)
    decreases |ids|
  {
    if ids != [] {
      VisitErrorJustified(g, m, [], ids[0]);
      var r := VisitFrom(g, m, ids[0]);
      if r.Ok? {
        VisitRootsErrorJustified(g, r.value, ids[1..]);
      }
    }
  }

  // ---------------------------------------------------------------------------
  // Soundness and completeness
  // ---------------------------------------------------------------------------

  /** A successful sort is a topological order of the last definitions of the ids. */
  lemma SortSound(nodes: seq<Node>)
    ensures Sort(nodes).Ok? ==> TopoOrder(ById(nodes), Sort(nodes).value)
    ensures Sort(nodes).Ok? ==> forall n :: n in Sort(nodes).value ==> LastDefinition(nodes, n)
  {
    SortIsOrder(nodes);
    if Sort(nodes).Ok? {
      forall n | n in Sort(nodes).value
        ensures LastDefinition(nodes, n)
      {
        TableHoldsLast(nodes, n.id);
      }
    }
  }

  lemma SortIsOrder(nodes: seq<Node>)
    ensures Sort(nodes).Ok? ==> TopoOrder(ById(nodes), Sort(nodes).value)
  {
    var g := ById(nodes);
    VisitAllKeepsMarks(g, NO_MARKS, Ids(nodes));
    var r := VisitAll(g, NO_MARKS, Ids(nodes));
    if r.Ok? {
      assert g.Keys <= r.value.visited;
      AllVisitedIsOrder(g, r.value);
    }
  }

  lemma AllVisitedIsOrder(g: map<string, Node>, m: Marks)
    requires Keyed(g) && MarksOk(g, m) && g.Keys <= m.visited
    ensures TopoOrder(g, m.sorted)
  {
    var ids := Ids(m.sorted);
    forall id | id in ids
      ensures id in g
    {
      var k :| 0 <= k < |ids| && ids[k] == id;
      assert m.sorted[k] in m.sorted;
    }
    assert ToSet(ids) == g.Keys;
    DistinctSize(ids);
    forall id | id in g
      ensures g[id] in m.sorted
    {
      var k :| 0 <= k < |ids| && ids[k] == id;
      assert m.sorted[k] in m.sorted;
    }
  }

  /** Every error has a witness in the graph. */
  lemma SortErrorJustified(nodes: seq<Node>)
    ensures Sort(nodes).Err? ==> Justified(ById(nodes), Sort(nodes).error)
  {
    VisitRootsErrorJustified(ById(nodes), NO_MARKS, Ids(nodes));
  }

  /** The sort succeeds exactly on closed acyclic graphs. */
  lemma SortSucceedsIff(nodes: seq<Node>)
    ensures Sort(nodes).Ok? <==> Closed(ById(nodes)) && Acyclic(ById(nodes))
  {
    SortSound(nodes);
    SortErrorJustified(nodes);
    if Sort(nodes).Ok? {
      OrderedIsClosedAcyclic(ById(nodes), Sort(nodes).value);
    }
  }

  // ---------------------------------------------------------------------------
  // The code
  // ---------------------------------------------------------------------------

  /** How many dependency entries the nodes of a list hold together. */
  function Entries(nodes: seq<Node>): nat {
    if nodes == [] then 0 else Entries(nodes[..|nodes| - 1]) + |nodes[|nodes| - 1].dependsOn|
  }

  /** The closure `visit` with the variables it captures. */
  class Sorter {
    const byID: map<string, Node>
    var visited: set<string>
    var inStack: set<string>
    var sorted: seq<Node>
    ghost var calls: nat  // calls of Visit so far
    ghost var expanded: seq<Node>  // the nodes whose dependency loop was entered

    constructor (nodes: seq<Node>)
      ensures byID == ById(nodes) && Contents() == NO_MARKS
      ensures calls == 0 && expanded == []
    {
      byID := ById(nodes);
      visited, inStack, sorted := {}, {}, [];
      calls, expanded := 0, [];
    }

    function Contents(): Marks
      reads this
    {
      Marks(visited, inStack, sorted)
    }

    /** Does what `VisitFrom` says; the calls made are one plus the entries of what it expanded. */
    method Visit(id: string) returns (err: Option<SortError>)
      requires Keyed(byID)
      requires Distinct(Ids(expanded)) && forall x :: x in Ids(expanded) ==> x in visited + inStack
      modifies this
      ensures err == None ==> VisitFrom(byID, old(Contents()), id) == Ok(Contents())
      ensures err.Some? ==> VisitFrom(byID, old(Contents()), id) == Err(err.value)
      ensures Distinct(Ids(expanded)) && forall x :: x in Ids(expanded) ==> x in visited + inStack
      ensures forall n :: n in expanded ==> n in old(expanded) || n in byID.Values
      ensures calls + Entries(old(expanded)) <= old(calls) + 1 + Entries(expanded)
      ensures err == None ==> calls + Entries(old(expanded)) == old(calls) + 1 + Entries(expanded)
      decreases byID.Keys - visited - inStack
    {
      calls := calls + 1;
      if id in visited {
        return None;
      }
      if id in inStack {
        return Some(CycleAt(id));
      }
      inStack := inStack + {id};
      if id !in byID {
        return Some(UnknownNode(id));
      }
      var node := byID[id];
      ghost var start := Contents();
      assert id in byID.Keys;
      assert byID.Keys - start.visited - start.inStack < old(byID.Keys - visited - inStack);
      ghost var before := expanded;
      expanded := expanded + [node];
      assert expanded[..|expanded| - 1] == before;
      assert Ids(expanded) == Ids(before) + [id] && id !in Ids(before);
      for i := 0 to |node.dependsOn|
        invariant start.visited <= visited && inStack == start.inStack
        invariant VisitAll(byID, start, node.dependsOn) == VisitAll(byID, Contents(), node.dependsOn[i..])
        invariant Distinct(Ids(expanded)) && forall x :: x in Ids(expanded) ==> x in visited + inStack
        invariant forall n :: n in expanded ==> n in old(expanded) || n in byID.Values
        invariant calls + Entries(old(expanded)) + |node.dependsOn| == old(calls) + 1 + i + Entries(expanded)
      {
        assert node.dependsOn[i..][1..] == node.dependsOn[i + 1..];
        assert byID.Keys - visited - inStack <= byID.Keys - start.visited - start.inStack;
        var e := Visit(node.dependsOn[i]);
        if e.Some? {
          return e;
        }
      }
      inStack := inStack - {id};
      visited := visited + {id};
      sorted := sorted + [node];
      return None;
    }
  }

  /** The exported function; the sort specification above says what the result means. */
  method TopologicalSort(spec: PipelineSpec) returns (r: Result<seq<Node>, SortError>, ghost calls: nat, ghost expanded: seq<Node>)
    ensures r == Sort(spec.nodes)
    ensures Distinct(Ids(expanded)) && forall n :: n in expanded ==> n in ById(spec.nodes).Values
    ensures calls <= |spec.nodes| + Entries(expanded)
    ensures r.Ok? ==> calls == |spec.nodes| + Entries(expanded)
  {
    var s := new Sorter(spec.nodes);
    var ids := Ids(spec.nodes);
    assert ids[0..] == ids;
    for i := 0 to |spec.nodes|
      invariant VisitAll(s.byID, NO_MARKS, ids) == VisitAll(s.byID, s.Contents(), ids[i..])
      invariant Distinct(Ids(s.expanded)) && forall x :: x in Ids(s.expanded) ==> x in s.visited + s.inStack
      invariant forall n :: n in s.expanded ==> n in s.byID.Values
      invariant s.calls == i + Entries(s.expanded)
      invariant fresh(s)
    {
      assert ids[i..][1..] == ids[i + 1..];
      var e := s.Visit(spec.nodes[i].id);
      if e.Some? {
        return Err(e.value), s.calls, s.expanded;
      }
    }
    return Ok(s.sorted), s.calls, s.expanded;
  }
}
