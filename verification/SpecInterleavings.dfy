/** The results on interleavings, for every specification whose flattened ids are distinct. */
module SpecInterleavings {
  import opened Messages
  import opened Conditions
  import opened DepGraph
  import opened Store
  import opened Scheduler
  import opened Manager
  import opened TopoSort
  import AtomicRuns
  import SpecRuns
  import opened Interleaving

  function NodeIDs(targets: seq<Target>): (ids: seq<string>)
    ensures |ids| == |targets| && forall i :: 0 <= i < |ids| ==> ids[i] == targets[i].nodeID
  {
    seq(|targets|, i requires 0 <= i < |targets| => targets[i].nodeID)
  }

  /** The ids that launching a node dispatches, in order. */
  function TargetIDs(n: Node): (ids: seq<string>)
    ensures ids == NodeIDs(Targets(n))
  {
    NodeIDs(Targets(n))
  }

  ghost function PlanOf(nodes: seq<Node>, pass: Gate): Plan<string> {
    var g := ById(nodes);
    Plan(map id | id in g :: g[id].dependsOn,
         set id | id in g && pass(g[id].conditions),
         map id | id in g :: TargetIDs(g[id]),
         map x | x in Dispatchable(nodes) :: OwnerOf(nodes, x))
  }

  ghost function Dispatchable(nodes: seq<Node>): set<string> {
    set n, x | n in nodes && x in TargetIDs(n) :: x
  }

  ghost function OwnerOf(nodes: seq<Node>, x: string): (id: string)
    requires x in Dispatchable(nodes)
    ensures exists n :: n in nodes && x in TargetIDs(n) && n.id == id
  {
    var n :| n in nodes && x in TargetIDs(n);
    n.id
  }

  // ---------------------------------------------------------------------------
  // Distinct record ids make a flat plan
  // ---------------------------------------------------------------------------

  lemma {:induction false} OwnAmongRecords(nodes: seq<Node>, n: Node, x: string)
    requires n in nodes && x in OwnIDs(n)
    ensures x in RecordIDs(nodes)
  {
    var last := nodes[|nodes| - 1];
    assert nodes == nodes[..|nodes| - 1] + [last];
    if n != last {
      OwnAmongRecords(nodes[..|nodes| - 1], n, x);
    }
  }

  lemma {:induction false} RecordHasOwner(nodes: seq<Node>, x: string) returns (n: Node)
    requires x in RecordIDs(nodes)
    ensures n in nodes && x in OwnIDs(n)
  {
    var last := |nodes| - 1;
    if x in OwnIDs(nodes[last]) {
      n := nodes[last];
    } else {
      n := RecordHasOwner(nodes[..last], x);
    }
  }

  lemma DistinctParts(a: seq<string>, b: seq<string>)
    requires Distinct(a + b)
    ensures Distinct(a) && Distinct(b)
    ensures forall x :: x in a ==> x !in b
  {
    forall i, j | 0 <= i < j < |a|
      ensures a[i] != a[j]
    {
      assert (a + b)[i] != (a + b)[j];
    }
    forall i, j | 0 <= i < j < |b|
      ensures b[i] != b[j]
    {
      assert (a + b)[|a| + i] != (a + b)[|a| + j];
    }
    forall i, j | 0 <= i < |a| && 0 <= j < |b|
      ensures a[i] != b[j]
    {
      assert (a + b)[i] != (a + b)[|a| + j];
    }
  }

  /** Records of different nodes do not meet, and no node records an id twice. */
  lemma {:induction false} OwnersAreUnique(nodes: seq<Node>, m: Node, n: Node, x: string)
    requires Distinct(RecordIDs(nodes)) && m in nodes && n in nodes && x in OwnIDs(m) && x in OwnIDs(n)
    ensures m == n && Distinct(OwnIDs(n))
  {
    var rest, last := nodes[..|nodes| - 1], nodes[|nodes| - 1];
    assert nodes == rest + [last];
    DistinctParts(RecordIDs(rest), OwnIDs(last));
    if m in rest {
      OwnAmongRecords(rest, m, x);
      OwnersAreUnique(rest, m, if n in rest then n else m, x);
    } else if n in rest {
      OwnAmongRecords(rest, n, x);
    }
  }

  lemma TargetsAreOwn(n: Node)
    ensures forall x :: x in TargetIDs(n) ==> x in OwnIDs(n)
    ensures n.kind.Stage? ==> OwnIDs(n) == [n.id] + TargetIDs(n)
    ensures n.kind.Job? ==> OwnIDs(n) == TargetIDs(n) == [n.id]
    ensures n.kind.Unset? ==> TargetIDs(n) == []
  {
    if n.kind.Stage? {
      assert InnerIDs(n, n.kind.stage.jobs) == TargetIDs(n);
    }
  }

  lemma {:induction false} DistinctIsOnceEach(ids: seq<string>)
    requires Distinct(ids)
    ensures OnceEach(ids)
  {
    if ids != [] {
      assert ids == [ids[0]] + ids[1..];
      DistinctParts([ids[0]], ids[1..]);
      DistinctIsOnceEach(ids[1..]);
    }
  }

  /** The targets of one node of the plan. */
  lemma NodeOfPlan(nodes: seq<Node>, n: Node)
    requires Distinct(RecordIDs(nodes)) && n in nodes
    ensures n.id in ById(nodes) && ById(nodes)[n.id] == n && Distinct(OwnIDs(n)) && OnceEach(TargetIDs(n))
  {
    var i :| 0 <= i < |nodes| && nodes[i] == n;
    assert Ids(nodes)[i] == n.id;
    var m := ById(nodes)[n.id];
    OwnersAreUnique(nodes, m, n, n.id);
    TargetsAreOwn(n);
    if n.kind.Stage? {
      DistinctParts([n.id], TargetIDs(n));
    }
    if n.kind.Stage? || n.kind.Job? {
      DistinctIsOnceEach(TargetIDs(n));
    }
  }

  lemma OwnerInPlan(nodes: seq<Node>, n: Node, x: string)
    requires Distinct(RecordIDs(nodes)) && n in nodes && x in TargetIDs(n)
    ensures x in Dispatchable(nodes) && OwnerOf(nodes, x) == n.id
    ensures x in ById(nodes) ==> TargetIDs(ById(nodes)[x]) == [x] && n.id == x
  {
    var m :| m in nodes && x in TargetIDs(m) && m.id == OwnerOf(nodes, x);
    TargetsAreOwn(m);
    TargetsAreOwn(n);
    OwnersAreUnique(nodes, m, n, x);
    if x in ById(nodes) {
      var o := ById(nodes)[x];
      assert x in OwnIDs(o);
      OwnersAreUnique(nodes, o, n, x);
      if n.kind.Stage? {
        DistinctParts([n.id], TargetIDs(n));
      }
    }
  }

  lemma PlanIsFlat(nodes: seq<Node>, pass: Gate)
    requires Distinct(RecordIDs(nodes))
    ensures Flat(PlanOf(nodes, pass))
  {
    var p, g := PlanOf(nodes, pass), ById(nodes);
    forall n | n in p.targets
      ensures OnceEach(p.targets[n])
      ensures forall x :: x in p.targets[n] ==> x in p.owner && p.owner[x] == n
    {
      NodeOfPlan(nodes, g[n]);
      forall x | x in TargetIDs(g[n]) { OwnerInPlan(nodes, g[n], x); }
    }
    forall x | x in p.owner
      ensures p.owner[x] in p.deps && x in p.targets[p.owner[x]] && (x in p.deps ==> p.targets[x] == [x])
    {
      var n :| n in nodes && x in TargetIDs(n) && n.id == OwnerOf(nodes, x);
      NodeOfPlan(nodes, n);
      OwnerInPlan(nodes, n, x);
    }
  }

  lemma SameRecords(nodes: seq<Node>, pass: Gate)
    ensures Records(PlanOf(nodes, pass)) == ToSet(RecordIDs(nodes))
  {
    var planned, seeded := Records(PlanOf(nodes, pass)), RecordIDs(nodes);
    forall x | x in seeded
      ensures x in planned
    {
      RecordIsPlanned(nodes, pass, x);
    }
    forall x | x in planned
      ensures x in seeded
    {
      PlannedIsRecord(nodes, pass, x);
    }
  }

  /** The records Start seeds are the records of the plan. */
  lemma SeededIsFresh(nodes: seq<Node>, pass: Gate)
    ensures Fresh(PlanOf(nodes, pass), Started(nodes))
  {
    SameRecords(nodes, pass);
    assert Started(nodes).states.Keys == ToSet(RecordIDs(nodes));
  }

  lemma RecordIsPlanned(nodes: seq<Node>, pass: Gate, x: string)
    requires x in RecordIDs(nodes)
    ensures x in Records(PlanOf(nodes, pass))
  {
    var n := RecordHasOwner(nodes, x);
    TargetsAreOwn(n);
    if x == n.id {
      var i :| 0 <= i < |nodes| && nodes[i] == n;
      assert Ids(nodes)[i] == x;
    } else {
      assert x in Dispatchable(nodes);
    }
  }

  lemma PlannedIsRecord(nodes: seq<Node>, pass: Gate, x: string)
    requires x in Records(PlanOf(nodes, pass))
    ensures x in RecordIDs(nodes)
  {
    if x in ById(nodes) {
      OwnAmongRecords(nodes, ById(nodes)[x], x);
    } else {
      var n :| n in nodes && x in TargetIDs(n);
      TargetsAreOwn(n);
      OwnAmongRecords(nodes, n, x);
    }
  }

  // ---------------------------------------------------------------------------
  // The results
  // ---------------------------------------------------------------------------

  /** The system right after Start. */
  function Started(nodes: seq<Node>): Sys<string> {
    Sys(Seeded(ToSet(RecordIDs(nodes))), Idle, map[], map[], RunRunning, [], None)
  }

  lemma SpecSnapshotStability(nodes: seq<Node>, pass: Gate, ops: seq<Op<string>>)
    requires Distinct(RecordIDs(nodes)) && Possible(PlanOf(nodes, pass), Started(nodes), ops)
    ensures var t := Exec(PlanOf(nodes, pass), Started(nodes), ops);
            && (forall n :: n in nodes ==> n.id in t.states && (t.states[n.id] != Pending ==> DepsTerminal(n.dependsOn, t.states)))
            && (forall x :: x in t.dispatched ==> t.dispatched[x] == 1)
  {
    var p := PlanOf(nodes, pass);
    PlanIsFlat(nodes, pass);
    SeededIsFresh(nodes, pass);
    SnapshotStability(p, Started(nodes), ops);
    var t := Exec(p, Started(nodes), ops);
    FreshHolds(p, Started(nodes));
    RunKeeps(p, Started(nodes), ops);
    forall n | n in nodes
      ensures n.id in p.deps && p.deps[n.id] == n.dependsOn && n.id in t.states
    {
      NodeOfPlan(nodes, n);
      assert n.id in Records(p);
    }
  }

  /** Once a node has failed, every node with a path to it stays pending and undispatched. */
  lemma SpecFailureContainment(nodes: seq<Node>, pass: Gate, ops: seq<Op<string>>, more: seq<Op<string>>, path: seq<string>)
    requires Distinct(RecordIDs(nodes))
    requires var p := PlanOf(nodes, pass);
             Possible(p, Started(nodes), ops) && Possible(p, Exec(p, Started(nodes), ops), more)
    requires Path(ById(nodes), path) && |path| >= 2
    requires Is(Exec(PlanOf(nodes, pass), Started(nodes), ops).states, path[|path| - 1], Failed)
    ensures var p := PlanOf(nodes, pass);
            Untouched(p, Exec(p, Exec(p, Started(nodes), ops), more), path[0])
  {
    PlanIsFlat(nodes, pass);
    SeededIsFresh(nodes, pass);
    PathIsChain(nodes, pass, path);
    FailureContainment(PlanOf(nodes, pass), Started(nodes), ops, more, path);
  }

  lemma PathIsChain(nodes: seq<Node>, pass: Gate, path: seq<string>)
    requires Path(ById(nodes), path)
    ensures Chain(PlanOf(nodes, pass), path)
  {
    var p := PlanOf(nodes, pass);
    forall i | 0 <= i < |path| - 1
      ensures path[i] in p.deps && path[i + 1] in p.deps[path[i]]
    {
      assert Edge(ById(nodes), path[i], path[i + 1]);
    }
  }

  /**
   * A node from which a path leads into a cycle, or to a dependency without a record, is never
   * launched, in any run.
   */
  lemma SpecDeadEndsNeverRun(nodes: seq<Node>, pass: Gate, ops: seq<Op<string>>, path: seq<string>, d: string)
    requires Distinct(RecordIDs(nodes)) && Possible(PlanOf(nodes, pass), Started(nodes), ops)
    requires Path(ById(nodes), path) && Edge(ById(nodes), path[|path| - 1], d)
    requires d in path || d !in RecordIDs(nodes)
    ensures Untouched(PlanOf(nodes, pass), Exec(PlanOf(nodes, pass), Started(nodes), ops), path[0])
  {
    var p := PlanOf(nodes, pass);
    PlanIsFlat(nodes, pass);
    SeededIsFresh(nodes, pass);
    PathIsChain(nodes, pass, path);
    if d in Records(p) {
      PlannedIsRecord(nodes, pass, d);
    }
    assert d in p.deps[path[|path| - 1]];
    CyclesNeverRun(p, Started(nodes), ops, path);
  }

  /**
   * All reports that finalise the run agree: failed exactly when some record failed. From the first
   * on nothing is dispatched, no record changes, and no node depends on a failed one.
   */
  lemma SpecFinalStateAgreed(nodes: seq<Node>, pass: Gate, ops: seq<Op<string>>, more: seq<Op<string>>)
    requires Distinct(RecordIDs(nodes))
    requires var p := PlanOf(nodes, pass);
             && Possible(p, Started(nodes), ops) && Possible(p, Exec(p, Started(nodes), ops), more)
             && Exec(p, Started(nodes), ops).published != []
    ensures var p := PlanOf(nodes, pass);
            var t, u := Exec(p, Started(nodes), ops), Exec(p, Exec(p, Started(nodes), ops), more);
            && u.states == t.states && u.dispatched == t.dispatched && u.run == t.run == t.published[0]
            && (forall r :: r in u.published ==> r == t.published[0])
            && (t.published[0] == RunFailed <==> exists x :: x in t.states && t.states[x] == Failed)
            && (forall n, d :: n in nodes && d in n.dependsOn ==> Settled(t.states, d))
  {
    var p := PlanOf(nodes, pass);
    PlanIsFlat(nodes, pass);
    SeededIsFresh(nodes, pass);
    FinalStateAgreed(p, Started(nodes), ops, more);
    forall n | n in nodes
      ensures n.id in p.deps && p.deps[n.id] == n.dependsOn
    {
      NodeOfPlan(nodes, n);
    }
  }

  /**
   * No finalisation is lost when a report closes the run: it is finalised with the state of the
   * table, or the closing report is on its way and can do it, or one of its operations failed.
   */
  lemma SpecNoLostFinalisation(nodes: seq<Node>, pass: Gate, ops: seq<Op<string>>)
    requires Distinct(RecordIDs(nodes)) && Possible(PlanOf(nodes, pass), Started(nodes), ops)
    requires Exec(PlanOf(nodes, pass), Started(nodes), ops).closer.Some?
    ensures var t := Exec(PlanOf(nodes, pass), Started(nodes), ops);
            && AllTerminal(t.states) && t.closer.value in t.reports
            && match t.reports[t.closer.value]
               case Ended(fault) => fault || (t.published != [] && t.run == FinalState(t.states))
               case _ => CanFinalise(PlanOf(nodes, pass), t)
  {
    PlanIsFlat(nodes, pass);
    SeededIsFresh(nodes, pass);
    NoLostFinalisation(PlanOf(nodes, pass), Started(nodes), ops);
  }

  /** The same from the write that closes the run. */
  lemma SpecClosingWriteFinalises(nodes: seq<Node>, pass: Gate, before: seq<Op<string>>, id: string, success: bool, more: seq<Op<string>>)
    requires Distinct(RecordIDs(nodes)) && Possible(PlanOf(nodes, pass), Started(nodes), before)
    requires Enabled(PlanOf(nodes, pass), Exec(PlanOf(nodes, pass), Started(nodes), before), WriteReport(id, success, Applied))
    requires var p := PlanOf(nodes, pass);
             var t := Do(p, Exec(p, Started(nodes), before), WriteReport(id, success, Applied));
             AllTerminal(t.states) && Possible(p, t, more)
    ensures var p := PlanOf(nodes, pass);
            var u := Exec(p, Do(p, Exec(p, Started(nodes), before), WriteReport(id, success, Applied)), more);
            && AllTerminal(u.states) && id in u.reports
            && match u.reports[id]
               case Ended(fault) => fault || (u.published != [] && u.run == FinalState(u.states))
               case _ => CanFinalise(p, u)
  {
    PlanIsFlat(nodes, pass);
    SeededIsFresh(nodes, pass);
    ClosingWriteFinalises(PlanOf(nodes, pass), Started(nodes), before, id, success, more);
  }

  /** A finalised run has jobs only, and nodes without members that were skipped. */
  lemma SpecFinalisedNodes(nodes: seq<Node>, pass: Gate, ops: seq<Op<string>>)
    requires Distinct(RecordIDs(nodes)) && Possible(PlanOf(nodes, pass), Started(nodes), ops)
    requires Exec(PlanOf(nodes, pass), Started(nodes), ops).published != []
    ensures var t := Exec(PlanOf(nodes, pass), Started(nodes), ops);
            forall n :: n in nodes ==> n.kind.Job? || (Is(t.states, n.id, Skipped) && Targets(n) == [])
  {
    var p := PlanOf(nodes, pass);
    var t := Exec(p, Started(nodes), ops);
    PlanIsFlat(nodes, pass);
    SeededIsFresh(nodes, pass);
    FreshHolds(p, Started(nodes));
    RunKeeps(p, Started(nodes), ops);
    PublishedState(p, t);
    forall n | n in nodes && !n.kind.Job?
      ensures Is(t.states, n.id, Skipped) && Targets(n) == []
    {
      NodeOfPlan(nodes, n);
      NotItsOwnTarget(nodes, n);
      UnreportedNode(p, t, n.id);
    }
  }

  /** A node that is no job is never dispatched itself. */
  lemma NotItsOwnTarget(nodes: seq<Node>, n: Node)
    requires Distinct(RecordIDs(nodes)) && n in nodes && !n.kind.Job?
    ensures n.id !in Dispatchable(nodes)
  {
    if n.id in Dispatchable(nodes) {
      var m :| m in nodes && n.id in TargetIDs(m);
      TargetsAreOwn(m);
      OwnersAreUnique(nodes, m, n, n.id);
      if n.kind.Stage? {
        DistinctParts([n.id], TargetIDs(n));
      }
      assert false;
    }
  }

  /** A specification with a stage that has members is never finalised, in any run. */
  lemma SpecStageNeverFinalises(nodes: seq<Node>, pass: Gate, ops: seq<Op<string>>, n: Node)
    requires Distinct(RecordIDs(nodes)) && Possible(PlanOf(nodes, pass), Started(nodes), ops)
    requires n in nodes && n.kind.Stage? && n.kind.stage.jobs != []
    ensures var t := Exec(PlanOf(nodes, pass), Started(nodes), ops);
            t.published == [] && t.run == RunRunning && !AllTerminal(t.states)
  {
    var p := PlanOf(nodes, pass);
    var t := Exec(p, Started(nodes), ops);
    PlanIsFlat(nodes, pass);
    SeededIsFresh(nodes, pass);
    FreshHolds(p, Started(nodes));
    RunKeeps(p, Started(nodes), ops);
    NodeOfPlan(nodes, n);
    NotItsOwnTarget(nodes, n);
    assert p.targets[n.id] != [];
    if AllTerminal(t.states) {
      UnreportedNode(p, t, n.id);
      assert false;
    }
  }

  /** A run all of whose records are terminal can still be finalised exactly if a report is in flight. */
  lemma SpecCompletesIffInFlight(nodes: seq<Node>, pass: Gate, ops: seq<Op<string>>)
    requires Distinct(RecordIDs(nodes)) && Possible(PlanOf(nodes, pass), Started(nodes), ops)
    requires var t := Exec(PlanOf(nodes, pass), Started(nodes), ops);
             AllTerminal(t.states) && t.published == []
    ensures var p := PlanOf(nodes, pass);
            var t := Exec(p, Started(nodes), ops);
            (exists more :: Possible(p, t, more) && Exec(p, t, more).published != []) <==> InFlight(t) != {}
  {
    var p := PlanOf(nodes, pass);
    PlanIsFlat(nodes, pass);
    SeededIsFresh(nodes, pass);
    FreshHolds(p, Started(nodes));
    RunKeeps(p, Started(nodes), ops);
    CompletesIffInFlight(p, Exec(p, Started(nodes), ops));
  }

  // ---------------------------------------------------------------------------
  // Confluence of interleavings
  // ---------------------------------------------------------------------------

  /** For jobs the invariants of the interleavings give the invariant of the atomic runs. */
  lemma InterleavedIsSound(p: Plan<string>, c: AtomicRuns.Setting, s: States)
    requires Keyed(c.g) && s.Keys == c.g.Keys && forall id :: id in c.g ==> Gates(p, c.pass, c.g[id])
    requires DepsHold(p, s) && GatesHold(p, c.succeeds, s)
    ensures AtomicRuns.Sound(c, s)
  {
    forall id | id in s
      ensures AtomicRuns.Entitled(c, c.g[id], s)
    {
      assert Gates(p, c.pass, c.g[id]);
    }
  }

  lemma JobKeys(nodes: seq<Node>)
    requires SpecRuns.JobSpecs(nodes)
    ensures Distinct(RecordIDs(nodes)) && Started(nodes).states.Keys == ById(nodes).Keys
  {
    SpecRuns.JobRecords(nodes);
  }

  lemma InterleavedInvariants(nodes: seq<Node>, pass: Gate, succeeds: string -> bool, ops: seq<Op<string>>)
    requires Distinct(RecordIDs(nodes)) && Possible(PlanOf(nodes, pass), Started(nodes), ops) && Truthful(ops, succeeds)
    ensures var p := PlanOf(nodes, pass);
            var t := Exec(p, Started(nodes), ops);
            Inv(p, t) && GatesHold(p, succeeds, t.states) && t.states.Keys == Started(nodes).states.Keys
  {
    var p := PlanOf(nodes, pass);
    PlanIsFlat(nodes, pass);
    SeededIsFresh(nodes, pass);
    FreshHolds(p, Started(nodes));
    RunKeeps(p, Started(nodes), ops);
    GatesStay(p, Started(nodes), succeeds, ops);
  }

  /**
   * Confluence at the grain of single operations: whatever writes and lists fail, and however the
   * reports overlap with each other and with the Advance, every interleaving that comes to rest
   * ends in the recursive meaning of the graph, where every order of the atomic steps ends.
   */
  lemma InterleavedConfluence(nodes: seq<Node>, pass: Gate, succeeds: string -> bool, rank: map<string, nat>, ops: seq<Op<string>>)
    requires SpecRuns.JobSpecs(nodes) && Ranked(ById(nodes), rank)
    requires Possible(PlanOf(nodes, pass), Started(nodes), ops) && Truthful(ops, succeeds)
    requires AtomicRuns.Quiescent(SpecRuns.SettingOf(nodes, pass, succeeds), Exec(PlanOf(nodes, pass), Started(nodes), ops).states)
    ensures var c := SpecRuns.SettingOf(nodes, pass, succeeds);
            Exec(PlanOf(nodes, pass), Started(nodes), ops).states == map id | id in c.g :: AtomicRuns.Meaning(c, rank, id)
  {
    var c := SpecRuns.SettingOf(nodes, pass, succeeds);
    var p := PlanOf(nodes, pass);
    var s := Exec(p, Started(nodes), ops).states;
    JobKeys(nodes);
    InterleavedInvariants(nodes, pass, succeeds, ops);
    GraphIsGated(nodes, pass);
    InterleavedIsSound(p, c, s);
    AtomicRuns.RestIsMeaning(c, rank, s);
  }

  /** For a specification the sort accepts, any interleaving and any atomic run that come to rest agree. */
  lemma InterleavingsAgree(nodes: seq<Node>, pass: Gate, succeeds: string -> bool, ops: seq<Op<string>>, acts: seq<AtomicRuns.Act>)
    requires SpecRuns.JobSpecs(nodes) && Sort(nodes).Ok?
    requires Possible(PlanOf(nodes, pass), Started(nodes), ops) && Truthful(ops, succeeds)
    requires AtomicRuns.Quiescent(SpecRuns.SettingOf(nodes, pass, succeeds), Exec(PlanOf(nodes, pass), Started(nodes), ops).states)
    requires var c := SpecRuns.SettingOf(nodes, pass, succeeds);
             AtomicRuns.Possible(c, AtomicRuns.Initial(c), acts)
             && AtomicRuns.Quiescent(c, AtomicRuns.Exec(c, AtomicRuns.Initial(c), acts).states)
    ensures var c := SpecRuns.SettingOf(nodes, pass, succeeds);
            Exec(PlanOf(nodes, pass), Started(nodes), ops).states == AtomicRuns.Exec(c, AtomicRuns.Initial(c), acts).states
  {
    var c := SpecRuns.SettingOf(nodes, pass, succeeds);
    var rank := SpecRuns.AcceptedIsRanked(nodes);
    InterleavedConfluence(nodes, pass, succeeds, rank, ops);
    AtomicRuns.Confluence(c, rank, acts);
  }

  // ---------------------------------------------------------------------------
  // Uninterrupted calls are the calls of the code
  // ---------------------------------------------------------------------------

  /** The ids dispatched for a run, in the order of the calls. */
  function CalledIDs(calls: seq<Call>, runID: string): seq<string> {
    if calls == [] then []
    else
      var last := calls[|calls| - 1];
      CalledIDs(calls[..|calls| - 1], runID) + if last.runID == runID then [last.target.nodeID] else []
  }

  /** The system stands where the code's tables and dispatcher stand. */
  predicate Mirrors(s: Sys<string>, q: Progress, runID: string) {
    s.states == q.states && s.dispatched == CountAll(map[], CalledIDs(q.calls, runID))
  }

  lemma {:induction false} FireCalled(p: Progress, runID: string, targets: seq<Target>, send: nat -> bool)
    ensures CalledIDs(Fire(p, runID, targets, send).calls, runID) == CalledIDs(p.calls, runID) + NodeIDs(targets)
  {
    if targets == [] {
      AppendEmpty(CalledIDs(p.calls, runID));
      assert NodeIDs(targets) == [];
    } else {
      var start, t := targets[..|targets| - 1], targets[|targets| - 1];
      FireCalled(p, runID, start, send);
      Snoc(Fire(p, runID, start, send).calls, Call(runID, t));
      Associative(CalledIDs(p.calls, runID), NodeIDs(start), [t.nodeID]);
      assert NodeIDs(targets) == NodeIDs(start) + [t.nodeID];
    }
  }

  /** The plan has the dependencies and the conditions of the node. */
  predicate Gates(p: Plan<string>, pass: Gate, n: Node) {
    n.id in p.deps && p.deps[n.id] == n.dependsOn && (n.id in p.passing <==> pass(n.conditions))
  }

  /** And its targets. */
  predicate Plans(p: Plan<string>, pass: Gate, n: Node) {
    Gates(p, pass, n) && TargetsOf(p, n.id) == NodeIDs(Targets(n))
  }

  lemma PlanKeys(nodes: seq<Node>, pass: Gate)
    ensures PlanOf(nodes, pass).deps.Keys == PlanOf(nodes, pass).targets.Keys == ById(nodes).Keys
    ensures PlanOf(nodes, pass).passing <= ById(nodes).Keys
  {
  }

  lemma GraphIsGated(nodes: seq<Node>, pass: Gate)
    ensures forall id :: id in ById(nodes) ==> Gates(PlanOf(nodes, pass), pass, ById(nodes)[id])
  {
  }

  lemma NodeIsPlanned(nodes: seq<Node>, pass: Gate, id: string)
    requires id in ById(nodes)
    ensures Plans(PlanOf(nodes, pass), pass, ById(nodes)[id])
  {
  }

  /** One iteration of the loop of the code is one visit of the plan. */
  lemma StepIsVisit(p: Plan<string>, pass: Gate, n: Node, q: Progress, snap: States, runID: string, w: Write, send: nat -> bool)
    requires Plans(p, pass, n)
    ensures var r := Step(q, n, snap, pass, runID, w, send);
            && r.states == Marked(p, snap, n.id, q.states, w)
            && CalledIDs(r.calls, runID) == CalledIDs(q.calls, runID) + Fired(p, snap, n.id, w)
  {
    var marked := q.(states := Written(q.states, n.id, Running, w));
    AppendEmpty(CalledIDs(q.calls, runID));
    FireCalls(marked, runID, Targets(n), send);
    FireCalled(marked, runID, Targets(n), send);
  }

  /** All ids of the list are planned, and `r` is what visiting them makes of `q`. */
  ghost predicate Visited(p: Plan<string>, q: Progress, r: Progress, order: seq<string>, w: nat -> Write, runID: string) {
    && (forall x :: x in order ==> x in p.deps)
    && r.states == AllMarked(p, q.states, order, w, q.states)
    && CalledIDs(r.calls, runID) == CalledIDs(q.calls, runID) + AllFired(p, q.states, order, w)
  }

  lemma VisitedNext(p: Plan<string>, q: Progress, r: Progress, order: seq<string>, pass: Gate, n: Node, runID: string, io: Io)
    requires Visited(p, q, r, order, io.write, runID) && Plans(p, pass, n)
    ensures Visited(p, q, Step(r, n, q.states, pass, runID, io.write(|order|), io.send), order + [n.id], io.write, runID)
  {
    StepIsVisit(p, pass, n, r, q.states, runID, io.write(|order|), io.send);
    Snoc(order, n.id);
    Associative(CalledIDs(q.calls, runID), AllFired(p, q.states, order, io.write), Fired(p, q.states, n.id, io.write(|order|)));
  }

  lemma {:induction false} LoopIsVisits(p: Plan<string>, nodes: seq<Node>, k: nat, pass: Gate, runID: string, io: Io, q: Progress)
    requires k <= |nodes| && forall i :: 0 <= i < |nodes| ==> Plans(p, pass, nodes[i])
    ensures Visited(p, q, Loop(nodes, k, q.states, pass, runID, io, q), Ids(nodes)[..k], io.write, runID)
  {
    if k == 0 {
      AppendEmpty(CalledIDs(q.calls, runID));
    } else {
      LoopIsVisits(p, nodes, k - 1, pass, runID, io, q);
      VisitedNext(p, q, Loop(nodes, k - 1, q.states, pass, runID, io, q), Ids(nodes)[..k - 1], pass, nodes[k - 1], runID, io);
      TakeNext(Ids(nodes), k - 1);
    }
  }

  /**
   * An Advance of the code, whatever its writes and dispatches come to, is a run of single
   * operations: it leaves the system at the records and the dispatches the code leaves.
   */
  lemma AdvanceIsRun(nodes: seq<Node>, pass: Gate, runID: string, io: Io, q: Progress, s: Sys<string>) returns (ops: seq<Op<string>>)
    requires Distinct(Ids(nodes)) && s.phase == Idle && Mirrors(s, q, runID)
    ensures Possible(PlanOf(nodes, pass), s, ops)
    ensures var t := Exec(PlanOf(nodes, pass), s, ops);
            Mirrors(t, Loop(nodes, |nodes|, q.states, pass, runID, io, q), runID) && t.phase == Idle && SameRun(s, t)
  {
    var p := PlanOf(nodes, pass);
    forall i | 0 <= i < |nodes|
      ensures Plans(p, pass, nodes[i])
    {
      ByIdDistinct(nodes);
      NodeIsPlanned(nodes, pass, nodes[i].id);
    }
    ops := UninterruptedAdvance(p, s, Ids(nodes), io.write);
    LoopIsVisits(p, nodes, |nodes|, pass, runID, io, q);
    TakeAll(Ids(nodes));
    CountAllAppend(map[], CalledIDs(q.calls, runID), AllFired(p, q.states, Ids(nodes), io.write));
  }

  lemma PlanStep(p: Plan<string>, c: AtomicRuns.Setting, s: States)
    requires Keyed(c.g) && p.deps.Keys == c.g.Keys && c.g.Keys <= s.Keys
    requires forall id :: id in c.g ==> Gates(p, c.pass, c.g[id])
    ensures LoopedOver(p, s, s, p.deps.Keys) == AtomicRuns.AdvanceAll(c, s)
  {
  }

  /** Where the system mirrors the code, an id has been dispatched as often as the code has called for it. */
  lemma DispatchedAsCalled(s: Sys<string>, q: Progress, runID: string, x: string)
    requires Mirrors(s, q, runID)
    ensures (if x in s.dispatched then s.dispatched[x] else 0) == multiset(CalledIDs(q.calls, runID))[x]
  {
    CountsOccurrences(map[], CalledIDs(q.calls, runID), x);
  }

  /** The operations of a NodeCompleted that nothing interrupts, none failing, are one atomic completion. */
  lemma UninterruptedCompletion(nodes: seq<Node>, pass: Gate, succeeds: string -> bool, s: Sys<string>, id: string) returns (ops: seq<Op<string>>)
    requires id in s.dispatched && id !in s.reports
    ensures Possible(PlanOf(nodes, pass), s, ops) && Truthful(ops, succeeds)
    ensures var t := Exec(PlanOf(nodes, pass), s, ops);
            t.phase == s.phase && t.dispatched == s.dispatched && t.reports.Keys == s.reports.Keys + {id}
    ensures var t := Exec(PlanOf(nodes, pass), s, ops);
            AtomicRuns.Run(t.states, t.published) ==
            AtomicRuns.Apply(AtomicRuns.Setting(ById(nodes), pass, succeeds), AtomicRuns.Run(s.states, s.published), AtomicRuns.Complete(id))
  {
    ops := UninterruptedReport(PlanOf(nodes, pass), s, id, succeeds(id), ReportIo(Applied, true, Applied));
  }

  /**
   * The operations of an Advance that nothing interrupts, no write failing, are one atomic step of
   * the runs over graphs, in whatever order the nodes are visited.
   */
  lemma UninterruptedIsAtomic(nodes: seq<Node>, pass: Gate, succeeds: string -> bool, s: Sys<string>, order: seq<string>) returns (ops: seq<Op<string>>)
    requires s.phase == Idle && ById(nodes).Keys <= s.states.Keys
    requires Distinct(order) && ToSet(order) == ById(nodes).Keys
    ensures Possible(PlanOf(nodes, pass), s, ops) && Quiet(ops)
    ensures forall x :: x in order ==> x in PlanOf(nodes, pass).deps
    ensures var p := PlanOf(nodes, pass);
            var t := Exec(p, s, ops);
            && t.states == AtomicRuns.AdvanceAll(AtomicRuns.Setting(ById(nodes), pass, succeeds), s.states)
            && t.dispatched == CountAll(s.dispatched, AllFired(p, s.states, order, _ => Applied))
            && t.phase == Idle && SameRun(s, t)
  {
    var p := PlanOf(nodes, pass);
    GraphIsGated(nodes, pass);
    PlanKeys(nodes, pass);
    assert forall x :: x in order <==> x in ToSet(order);
    PlanStep(p, AtomicRuns.Setting(ById(nodes), pass, succeeds), s.states);
    ops := UninterruptedAdvance(p, s, order, _ => Applied);
    MarkedIsLoopedOver(p, s.states, order, _ => Applied);
  }

  // ---------------------------------------------------------------------------
  // Runs of atomic calls are interleavings
  // ---------------------------------------------------------------------------

  /** Between calls the system stands where the atomic run stands, and every running job can be reported. */
  ghost predicate Level(s: Sys<string>, r: AtomicRuns.Run) {
    && s.states == r.states && s.published == r.published && s.phase == Idle
    && forall id :: id in s.states && s.states[id] == Running ==> id in s.dispatched && id !in s.reports
  }

  /** A launched job is among the dispatches. */
  lemma {:induction false} LaunchedIsFired(p: Plan<string>, snap: States, order: seq<string>, id: string)
    requires (forall x :: x in order ==> x in p.deps) && id in order && TargetsOf(p, id) == [id]
    requires DecideOn(id, p.deps[id], id in p.passing, snap) == Launch
    ensures id in AllFired(p, snap, order, _ => Applied)
  {
    var last := |order| - 1;
    SplitLast(order);
    if order[last] != id {
      LaunchedIsFired(p, snap, order[..last], id);
    }
  }

  lemma PendingIsUnreported(p: Plan<string>, s: Sys<string>, id: string)
    requires Flat(p) && Inv(p, s) && Is(s.states, id, Pending) && id in p.deps && TargetsOf(p, id) == [id]
    ensures id !in s.dispatched && id !in s.reports
  {
    assert id in p.targets && id in p.targets[id];
  }

  /** What an Advance makes running was pending and is launched. */
  lemma NewlyRunning(p: Plan<string>, c: AtomicRuns.Setting, s: States, id: string)
    requires Keyed(c.g) && (forall x :: x in c.g ==> Gates(p, c.pass, c.g[x]))
    requires id in s && AtomicRuns.AdvanceAll(c, s)[id] == Running && s[id] != Running
    ensures id in c.g && id in p.deps && s[id] == Pending && DecideOn(id, p.deps[id], id in p.passing, s) == Launch
  {
    assert Gates(p, c.pass, c.g[id]);
  }

  lemma JobTargets(nodes: seq<Node>, pass: Gate, id: string)
    requires SpecRuns.JobSpecs(nodes) && id in ById(nodes)
    ensures TargetsOf(PlanOf(nodes, pass), id) == [id]
  {
    NodeIsPlanned(nodes, pass, id);
    TargetsAreOwn(ById(nodes)[id]);
  }

  lemma AdvanceLevel(nodes: seq<Node>, pass: Gate, succeeds: string -> bool, s: Sys<string>, r: AtomicRuns.Run) returns (ops: seq<Op<string>>)
    requires SpecRuns.JobSpecs(nodes) && Flat(PlanOf(nodes, pass)) && Inv(PlanOf(nodes, pass), s) && Level(s, r)
    requires ById(nodes).Keys <= s.states.Keys
    ensures Possible(PlanOf(nodes, pass), s, ops) && Quiet(ops)
    ensures Level(Exec(PlanOf(nodes, pass), s, ops), AtomicRuns.Apply(SpecRuns.SettingOf(nodes, pass, succeeds), r, AtomicRuns.Advance))
  {
    var p, c := PlanOf(nodes, pass), SpecRuns.SettingOf(nodes, pass, succeeds);
    IdsAreKeys(nodes);
    ops := UninterruptedIsAtomic(nodes, pass, succeeds, s, Ids(nodes));
    GraphIsGated(nodes, pass);
    AllJobTargets(nodes, pass);
    AllStayReportable(p, c, s, Ids(nodes));
  }

  lemma IdsAreKeys(nodes: seq<Node>)
    ensures ToSet(Ids(nodes)) == ById(nodes).Keys
  {
  }

  lemma AllJobTargets(nodes: seq<Node>, pass: Gate)
    requires SpecRuns.JobSpecs(nodes)
    ensures forall id :: id in ById(nodes) ==> id in Ids(nodes) && TargetsOf(PlanOf(nodes, pass), id) == [id]
  {
    forall id | id in ById(nodes) { JobTargets(nodes, pass, id); }
  }

  lemma AllStayReportable(p: Plan<string>, c: AtomicRuns.Setting, s: Sys<string>, order: seq<string>)
    requires Flat(p) && Inv(p, s) && Keyed(c.g) && (forall x :: x in c.g ==> Gates(p, c.pass, c.g[x]))
    requires (forall x :: x in order ==> x in p.deps) && (forall x :: x in c.g ==> x in order && TargetsOf(p, x) == [x])
    requires forall id :: id in s.states && s.states[id] == Running ==> id in s.dispatched && id !in s.reports
    ensures var dispatched := CountAll(s.dispatched, AllFired(p, s.states, order, _ => Applied));
            forall id :: id in s.states && AtomicRuns.AdvanceAll(c, s.states)[id] == Running ==> id in dispatched && id !in s.reports
  {
    forall id | id in s.states && AtomicRuns.AdvanceAll(c, s.states)[id] == Running
      ensures id in CountAll(s.dispatched, AllFired(p, s.states, order, _ => Applied)) && id !in s.reports
    {
      StaysReportable(p, c, s, order, id);
    }
  }

  lemma StaysReportable(p: Plan<string>, c: AtomicRuns.Setting, s: Sys<string>, order: seq<string>, id: string)
    requires Flat(p) && Inv(p, s) && Keyed(c.g) && (forall x :: x in c.g ==> Gates(p, c.pass, c.g[x]))
    requires (forall x :: x in order ==> x in p.deps) && (id in c.g ==> id in order && TargetsOf(p, id) == [id])
    requires id in s.states && AtomicRuns.AdvanceAll(c, s.states)[id] == Running
    requires s.states[id] == Running ==> id in s.dispatched && id !in s.reports
    ensures id in CountAll(s.dispatched, AllFired(p, s.states, order, _ => Applied)) && id !in s.reports
  {
    CountsOccurrences(s.dispatched, AllFired(p, s.states, order, _ => Applied), id);
    if s.states[id] != Running {
      NewlyRunning(p, c, s.states, id);
      LaunchedIsFired(p, s.states, order, id);
      PendingIsUnreported(p, s, id);
    }
  }

  lemma {:induction false} TruthfulAppend(a: seq<Op<string>>, b: seq<Op<string>>, succeeds: string -> bool)
    requires Truthful(a, succeeds) && Truthful(b, succeeds)
    ensures Truthful(a + b, succeeds)
  {
  }

  /** Every run of atomic calls is an interleaving with truthful reports, with the same records and completions. */
  lemma {:induction false} AtomicIsInterleaved(nodes: seq<Node>, pass: Gate, succeeds: string -> bool, acts: seq<AtomicRuns.Act>) returns (ops: seq<Op<string>>)
    requires SpecRuns.JobSpecs(nodes)
    requires var c := SpecRuns.SettingOf(nodes, pass, succeeds); AtomicRuns.Possible(c, AtomicRuns.Initial(c), acts)
    ensures Possible(PlanOf(nodes, pass), Started(nodes), ops) && Truthful(ops, succeeds)
    ensures var c := SpecRuns.SettingOf(nodes, pass, succeeds);
            Level(Exec(PlanOf(nodes, pass), Started(nodes), ops), AtomicRuns.Exec(c, AtomicRuns.Initial(c), acts))
  {
    var p, c := PlanOf(nodes, pass), SpecRuns.SettingOf(nodes, pass, succeeds);
    if acts == [] {
      ops := [];
      SpecRuns.CodeStepsAreGraphSteps(nodes, pass, succeeds, Started(nodes).states);
    } else {
      var start, a := acts[..|acts| - 1], acts[|acts| - 1];
      SplitLast(acts);
      AtomicRuns.ExecSnoc(c, AtomicRuns.Initial(c), start, a);
      var before := AtomicIsInterleaved(nodes, pass, succeeds, start);
      var next := ActLevel(nodes, pass, succeeds, before, AtomicRuns.Exec(c, AtomicRuns.Initial(c), start), a);
      TruthfulAppend(before, next, succeeds);
      ops := Joined(p, Started(nodes), before, next);
    }
  }

  /** One more call. */
  lemma ActLevel(nodes: seq<Node>, pass: Gate, succeeds: string -> bool, before: seq<Op<string>>, r: AtomicRuns.Run, a: AtomicRuns.Act) returns (ops: seq<Op<string>>)
    requires SpecRuns.JobSpecs(nodes) && Possible(PlanOf(nodes, pass), Started(nodes), before)
    requires Truthful(before, succeeds) && Level(Exec(PlanOf(nodes, pass), Started(nodes), before), r) && AtomicRuns.Enabled(r, a)
    ensures var s := Exec(PlanOf(nodes, pass), Started(nodes), before);
            Possible(PlanOf(nodes, pass), s, ops) && Truthful(ops, succeeds)
    ensures var s := Exec(PlanOf(nodes, pass), Started(nodes), before);
            Level(Exec(PlanOf(nodes, pass), s, ops), AtomicRuns.Apply(SpecRuns.SettingOf(nodes, pass, succeeds), r, a))
  {
    var s := Exec(PlanOf(nodes, pass), Started(nodes), before);
    JobKeys(nodes);
    match a {
      case Advance =>
        PlanIsFlat(nodes, pass);
        InterleavedInvariants(nodes, pass, succeeds, before);
        ops := AdvanceLevel(nodes, pass, succeeds, s, r);
      case Complete(id) =>
        ops := UninterruptedCompletion(nodes, pass, succeeds, s, id);
    }
  }

  // ---------------------------------------------------------------------------
  // Two specifications
  // ---------------------------------------------------------------------------

  /** On a branch where its conditions fail the one node is skipped, and the run is never finalised. */
  lemma FinalisationCanBeLost(job: JobSpec) returns (nodes: seq<Node>, ops: seq<Op<string>>)
    ensures nodes == [Node("a", [], [OnBranch("main")], Job(job))]
    ensures var p := PlanOf(nodes, GateOf(RunContext("dev", "", "")));
            && Possible(p, Started(nodes), ops)
            && var t := Exec(p, Started(nodes), ops);
            && AllTerminal(t.states) && t.run == RunRunning
            && forall more :: Possible(p, t, more) ==> Exec(p, t, more).published == []
  {
    var a := Node("a", [], [OnBranch("main")], Job(job));
    var pass := GateOf(RunContext("dev", "", ""));
    nodes := [a];
    var p, s := PlanOf(nodes, pass), Started(nodes);
    MainFailsOnDev(RunContext("dev", "", ""));
    OneJob(nodes, pass, a);
    ops := SkipsTheOne(p, s, a.id);
    SkippedForGood(nodes, pass, ops);
  }

  lemma SkippedForGood(nodes: seq<Node>, pass: Gate, ops: seq<Op<string>>)
    requires Distinct(RecordIDs(nodes)) && Possible(PlanOf(nodes, pass), Started(nodes), ops)
    requires var t := Exec(PlanOf(nodes, pass), Started(nodes), ops);
             AllTerminal(t.states) && t.published == [] && t.reports == map[]
    ensures var p := PlanOf(nodes, pass);
            var t := Exec(p, Started(nodes), ops);
            forall more :: Possible(p, t, more) ==> Exec(p, t, more).published == []
  {
    SpecCompletesIffInFlight(nodes, pass, ops);
    assert InFlight(Exec(PlanOf(nodes, pass), Started(nodes), ops)) == {};
  }

  lemma OneRecord(nodes: seq<Node>, a: Node)
    requires nodes == [a] && a.kind.Job?
    ensures RecordIDs(nodes) == [a.id] && ById(nodes) == map[a.id := a]
  {
    assert nodes[..0] == [];
    assert a in nodes && Ids(nodes) == [a.id];
  }

  lemma OneJob(nodes: seq<Node>, pass: Gate, a: Node)
    requires nodes == [a] && a.kind.Job? && a.dependsOn == [] && !pass(a.conditions)
    ensures Distinct(RecordIDs(nodes)) && Started(nodes).states == map[a.id := Pending]
    ensures PlanOf(nodes, pass).deps == map[a.id := []] && PlanOf(nodes, pass).passing == {}
  {
    OneRecord(nodes, a);
    PlanKeys(nodes, pass);
    NodeIsPlanned(nodes, pass, a.id);
  }

  /** Two independent jobs, in any context: overlapping reports can both complete the run. */
  lemma RunCanCompleteTwice(job: JobSpec, rc: RunContext) returns (nodes: seq<Node>, ops: seq<Op<string>>)
    ensures nodes == [Node("a", [], [], Job(job)), Node("b", [], [], Job(job))]
    ensures var p := PlanOf(nodes, GateOf(rc));
            && Possible(p, Started(nodes), ops)
            && Exec(p, Started(nodes), ops).published == [RunSuccess, RunSuccess]
  {
    var a, b := Node("a", [], [], Job(job)), Node("b", [], [], Job(job));
    nodes := [a, b];
    assert a.id != b.id;
    TwoRecords(nodes, a, b);
    TwoStarted(nodes, a, b);
    TwoPlanned(nodes, GateOf(rc), a, b);
    ops := CompletesTwice(PlanOf(nodes, GateOf(rc)), Started(nodes), a.id, b.id);
  }

  lemma TwoRecords(nodes: seq<Node>, a: Node, b: Node)
    requires nodes == [a, b] && a.kind.Job? && b.kind.Job? && a.id != b.id
    ensures RecordIDs(nodes) == [a.id, b.id] && ById(nodes) == map[a.id := a, b.id := b]
  {
    assert nodes[..1] == [a];
    OneRecord([a], a);
    assert a in nodes && b in nodes && Ids(nodes) == [a.id, b.id];
  }

  lemma TwoStarted(nodes: seq<Node>, a: Node, b: Node)
    requires RecordIDs(nodes) == [a.id, b.id]
    ensures Started(nodes).states == map[a.id := Pending, b.id := Pending]
  {
    assert ToSet([a.id, b.id]) == {a.id, b.id};
  }

  lemma TwoPlanned(nodes: seq<Node>, pass: Gate, a: Node, b: Node)
    requires ById(nodes) == map[a.id := a, b.id := b] && a.id != b.id
    requires a.kind.Job? && b.kind.Job? && a.dependsOn == b.dependsOn == [] && pass(a.conditions) && pass(b.conditions)
    ensures var p := PlanOf(nodes, pass);
            && p.deps == map[a.id := [], b.id := []] && p.passing == {a.id, b.id}
            && p.targets == map[a.id := [a.id], b.id := [b.id]]
  {
    var g := ById(nodes);
    PlanKeys(nodes, pass);
    assert g.Keys == {a.id, b.id} && g[a.id] == a && g[b.id] == b;
    NodeIsPlanned(nodes, pass, a.id);
    NodeIsPlanned(nodes, pass, b.id);
    PlanOfTwo(PlanOf(nodes, pass), pass, a, b);
  }

  lemma PlanOfTwo(p: Plan<string>, pass: Gate, a: Node, b: Node)
    requires a.kind.Job? && b.kind.Job? && a.dependsOn == b.dependsOn == [] && a.id != b.id
    requires pass(a.conditions) && pass(b.conditions) && Plans(p, pass, a) && Plans(p, pass, b)
    requires p.deps.Keys == p.targets.Keys == {a.id, b.id} && p.passing <= {a.id, b.id}
    ensures p.deps == map[a.id := [], b.id := []] && p.passing == {a.id, b.id}
    ensures p.targets == map[a.id := [a.id], b.id := [b.id]]
  {
    TargetsAreOwn(a);
    TargetsAreOwn(b);
  }
}
