/** The results on runs, for every specification of jobs that the topological sort accepts. */
module SpecRuns {
  import opened Messages
  import opened DepGraph
  import opened TopoSort
  import opened Store
  import opened Scheduler
  import opened Manager
  import opened AtomicRuns

  /** Jobs only, under distinct ids. */
  predicate JobSpecs(nodes: seq<Node>) {
    Distinct(Ids(nodes)) && forall n :: n in nodes ==> n.kind.Job?
  }

  function SettingOf(nodes: seq<Node>, pass: Gate, succeeds: string -> bool): (c: Setting)
    ensures Keyed(c.g)
  {
    Setting(ById(nodes), pass, succeeds)
  }

  lemma {:induction false} JobRecords(nodes: seq<Node>)
    requires forall n :: n in nodes ==> n.kind.Job?
    ensures RecordIDs(nodes) == Ids(nodes)
  {
    if nodes != [] {
      JobRecords(nodes[..|nodes| - 1]);
      assert nodes[|nodes| - 1] in nodes;
    }
  }

  /** With distinct ids the decision on a record is that on the one node of its id. */
  lemma NextOfNode(nodes: seq<Node>, s: States, pass: Gate, n: Node)
    requires Distinct(Ids(nodes)) && n in nodes && n.id in s
    ensures Next(nodes, s, pass, n.id) == Effect(s, n.id, Decide(n, s, pass))[n.id]
  {
    forall m | m in nodes && m.id == n.id
      ensures m == n
    {
      SameNode(nodes, m, n);
    }
    assert Decided(nodes, s, pass, n.id, Decide(n, s, pass));
  }

  lemma NextOfOther(nodes: seq<Node>, s: States, pass: Gate, id: string)
    requires id in s && id !in Ids(nodes)
    ensures Next(nodes, s, pass, id) == s[id]
  {
    forall n | n in nodes
      ensures n.id != id
    {
      var i :| 0 <= i < |nodes| && nodes[i] == n;
      assert Ids(nodes)[i] == n.id;
    }
  }

  /** What Start seeds is where the runs start, and what Advance writes is the step of the graph. */
  lemma CodeStepsAreGraphSteps(nodes: seq<Node>, pass: Gate, succeeds: string -> bool, s: States)
    requires JobSpecs(nodes)
    ensures Seeded(ToSet(RecordIDs(nodes))) == Initial(SettingOf(nodes, pass, succeeds)).states
    ensures Advanced(nodes, s, pass) == AdvanceAll(SettingOf(nodes, pass, succeeds), s)
  {
    var g := ById(nodes);
    JobRecords(nodes);
    forall id | id in s
      ensures Next(nodes, s, pass, id) == if id in g then Effect(s, id, Decide(g[id], s, pass))[id] else s[id]
    {
      if id in g {
        NextOfNode(nodes, s, pass, g[id]);
      } else {
        NextOfOther(nodes, s, pass, id);
      }
    }
  }

  /** An accepted specification can be ranked below its size. */
  lemma AcceptedIsRanked(nodes: seq<Node>) returns (rank: map<string, nat>)
    requires Sort(nodes).Ok?
    ensures Ranked(ById(nodes), rank) && forall id :: id in rank ==> rank[id] < |ById(nodes)|
  {
    SortSound(nodes);
    rank := RankOfOrder(ById(nodes), Sort(nodes).value);
  }

  /** Any two orders of the steps that come to rest end in the same states. */
  lemma SpecConfluence(nodes: seq<Node>, pass: Gate, succeeds: string -> bool, a: seq<Act>, b: seq<Act>)
    requires JobSpecs(nodes) && Sort(nodes).Ok?
    requires var c := SettingOf(nodes, pass, succeeds);
             && Possible(c, Initial(c), a) && Quiescent(c, Exec(c, Initial(c), a).states)
             && Possible(c, Initial(c), b) && Quiescent(c, Exec(c, Initial(c), b).states)
    ensures var c := SettingOf(nodes, pass, succeeds);
            Exec(c, Initial(c), a).states == Exec(c, Initial(c), b).states
  {
    var c := SettingOf(nodes, pass, succeeds);
    var rank := AcceptedIsRanked(nodes);
    Confluence(c, rank, a);
    Confluence(c, rank, b);
  }

  /** In a reachable state with a pending node and nothing running or failed, an Advance moves a node. */
  lemma SpecDeadlockFree(nodes: seq<Node>, pass: Gate, succeeds: string -> bool, acts: seq<Act>)
    requires JobSpecs(nodes) && Sort(nodes).Ok?
    requires var c := SettingOf(nodes, pass, succeeds);
             var s := Exec(c, Initial(c), acts).states;
             && Possible(c, Initial(c), acts) && (exists id :: id in s && s[id] == Pending)
             && forall id :: id in s ==> s[id] != Running && s[id] != Failed
    ensures var c := SettingOf(nodes, pass, succeeds);
            var s := Exec(c, Initial(c), acts).states;
            AdvanceAll(c, s) != s
  {
    var c := SettingOf(nodes, pass, succeeds);
    var s := Exec(c, Initial(c), acts).states;
    RunsAreSound(c, acts);
    var rank := AcceptedIsRanked(nodes);
    var id :| id in s && s[id] == Pending;
    DeadlockFree(c, rank, s, id);
  }

  /** At rest a node is pending exactly when a chain of dependencies leads from it to a failed one. */
  lemma SpecBlockedExactly(nodes: seq<Node>, pass: Gate, succeeds: string -> bool, acts: seq<Act>, id: string)
    requires JobSpecs(nodes) && Sort(nodes).Ok? && id in Ids(nodes)
    requires var c := SettingOf(nodes, pass, succeeds);
             Possible(c, Initial(c), acts) && Quiescent(c, Exec(c, Initial(c), acts).states)
    ensures var c := SettingOf(nodes, pass, succeeds);
            var s := Exec(c, Initial(c), acts).states;
            id in s && (s[id] == Pending <==> BehindFailure(c, s, id))
  {
    var c := SettingOf(nodes, pass, succeeds);
    RunsAreSound(c, acts);
    var rank := AcceptedIsRanked(nodes);
    BlockedExactly(c, rank, Exec(c, Initial(c), acts).states, id);
  }

  /** If every job succeeds, all nodes have settled after as many rounds as there are nodes. */
  lemma SpecSettles(nodes: seq<Node>, pass: Gate, succeeds: string -> bool, id: string)
    requires JobSpecs(nodes) && Sort(nodes).Ok? && (forall x :: succeeds(x)) && id in Ids(nodes)
    ensures |ById(nodes)| == |nodes| && Settled(Rounds(SettingOf(nodes, pass, succeeds), |nodes|), id)
  {
    var rank := AcceptedIsRanked(nodes);
    AllSettle(SettingOf(nodes, pass, succeeds), rank, id);
    DistinctSize(Ids(nodes));
    assert ById(nodes).Keys == ToSet(Ids(nodes));
  }
}
