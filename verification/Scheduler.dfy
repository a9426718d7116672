/** The scheduler: one Advance over the dependency graph of a run. */
module Scheduler {
  import opened Messages
  import opened Conditions
  import opened Store
  import Text

  datatype Event =
    | TriggerReceived(run: string)
    | JobDispatched(node: string)
    | JobCompleted(node: string)
    | JobFailed(node: string)
    | RunCompleted(run: string)

  /** A job handed to the dispatcher; a stage member that is no job carries no specification. */
  datatype Target = Target(nodeID: string, job: Option<JobSpec>)

  datatype Call = Call(runID: string, target: Target)

  // ---------------------------------------------------------------------------
  // The decision for one node
  // ---------------------------------------------------------------------------

  predicate Settled<ID>(s: Table<ID>, id: ID) {
    id in s && (s[id] == Success || s[id] == Skipped)
  }

  predicate Is<ID>(s: Table<ID>, x: ID, st: NodeState) {
    x in s && s[x] == st
  }

  predicate DepsTerminal<ID>(deps: seq<ID>, s: Table<ID>) {
    forall d :: d in deps ==> Settled(s, d)
  }

  predicate Ready(n: Node, s: States) {
    ReadyOn(n.id, n.dependsOn, s)
  }

  predicate ReadyOn<ID>(id: ID, deps: seq<ID>, s: Table<ID>) {
    id in s && s[id] == Pending && DepsTerminal(deps, s)
  }

  /** How a list of conditions is evaluated; the scheduling results hold for every evaluation. */
  type Gate = seq<string> -> bool

  function GateOf(rc: RunContext): Gate {
    conditions => EvalConditions(conditions, rc)
  }

  datatype Decision = Leave | Skip | Launch

  function Decide(n: Node, snap: States, pass: Gate): Decision {
    DecideOn(n.id, n.dependsOn, pass(n.conditions), snap)
  }

  /** The decision, from the dependencies of a node and whether its conditions pass. */
  function DecideOn<ID>(id: ID, deps: seq<ID>, passes: bool, snap: Table<ID>): Decision {
    if !ReadyOn(id, deps, snap) then Leave
    else if !passes then Skip
    else Launch
  }

  function GetJob(n: Node): Option<JobSpec> {
    if n.kind.Job? then Some(n.kind.job) else None
  }

  function InnerID(n: Node, j: Node): string {
    n.id + "/" + j.id
  }

  /** What launching a node dispatches. */
  function Targets(n: Node): seq<Target> {
    match n.kind
    case Job(job) => [Target(n.id, Some(job))]
    case Stage(stage) => seq(|stage.jobs|, i requires 0 <= i < |stage.jobs| => Target(InnerID(n, stage.jobs[i]), GetJob(stage.jobs[i])))
    case Unset => []
  }

  // ---------------------------------------------------------------------------
  // The loop
  // ---------------------------------------------------------------------------

  /** What an Advance can change: the records of its run, the calls made, the events published. */
  datatype Progress = Progress(states: States, calls: seq<Call>, events: seq<Event>)

  /** The outcomes of the operations: the list, the write for the i-th node, the n-th call ever made. */
  datatype Io = Io(list: bool, write: nat -> Write, send: nat -> bool)

  /** Dispatches in order; a failed dispatch publishes nothing and does not stop the rest. */
  function Fire(p: Progress, runID: string, targets: seq<Target>, send: nat -> bool): Progress {
    if targets == [] then p
    else
      var q := Fire(p, runID, targets[..|targets| - 1], send);
      var t := targets[|targets| - 1];
      Progress(q.states, q.calls + [Call(runID, t)],
               if send(|q.calls|) then q.events + [JobDispatched(t.nodeID)] else q.events)
  }

  function Step(p: Progress, n: Node, snap: States, pass: Gate, runID: string, w: Write, send: nat -> bool): Progress {
    match Decide(n, snap, pass)
    case Leave => p
    case Skip => p.(states := Written(p.states, n.id, Skipped, w))
    case Launch =>
      var q := p.(states := Written(p.states, n.id, Running, w));
      if w == Applied then Fire(q, runID, Targets(n), send) else q
  }

  /** The loop after its first `k` nodes, every decision taken on the same snapshot. */
  function Loop(nodes: seq<Node>, k: nat, snap: States, pass: Gate, runID: string, io: Io, p: Progress): Progress
    requires k <= |nodes|
  {
    if k == 0 then p
    else Step(Loop(nodes, k - 1, snap, pass, runID, io, p), nodes[k - 1], snap, pass, runID, io.write(k - 1), io.send)
  }

  class Dispatcher {
    var calls: seq<Call>
  }

  class Bus {
    var events: seq<Event>

    method Publish(e: Event)
      modifies this
      ensures events == old(events) + [e]
    {
      events := events + [e];
    }
  }

  class Scheduler {
    const store: Tables
    const dispatcher: Dispatcher
    const bus: Bus

    constructor (store: Tables, dispatcher: Dispatcher, bus: Bus)
      ensures this.store == store && this.dispatcher == dispatcher && this.bus == bus
    {
      this.store, this.dispatcher, this.bus := store, dispatcher, bus;
    }

    function Now(runID: string): Progress
      reads store, dispatcher, bus
    {
      Progress(store.Records(runID), dispatcher.calls, bus.events)
    }

    method Dispatch(runID: string, target: Target, send: nat -> bool)
      modifies dispatcher, bus
      ensures Now(runID) == Fire(old(Now(runID)), runID, [target], send)
      ensures dispatcher.calls == old(dispatcher.calls) + [Call(runID, target)]
      ensures bus.events == old(bus.events) + if send(|old(dispatcher.calls)|) then [JobDispatched(target.nodeID)] else []
    {
      var sent := send(|dispatcher.calls|);
      assert [target][..0] == [];
      dispatcher.calls := dispatcher.calls + [Call(runID, target)];
      if sent {
        bus.Publish(JobDispatched(target.nodeID));
      }
    }

    method Advance(runID: string, spec: PipelineSpec, rc: RunContext, io: Io)
      modifies store`nodes, dispatcher, bus
      ensures Now(runID) ==
              if io.list then Loop(spec.nodes, |spec.nodes|, old(store.Records(runID)), GateOf(rc), runID, io, old(Now(runID)))
              else old(Now(runID))
      ensures io.list && Distinct(Ids(spec.nodes)) && NoWriteFaults(io) ==>
                DecidedByTests(spec.nodes, old(store.Records(runID)), store.Records(runID), rc)
      ensures forall r :: r != runID ==> store.Records(r) == old(store.Records(r))
    {
      if !io.list {
        return;
      }
      var rows := store.ListNodes(runID);
      ghost var snap := store.Records(runID);
      var stateByID := StatesByID(rows, snap);
      for i := 0 to |spec.nodes|
        invariant Now(runID) == Loop(spec.nodes, i, snap, GateOf(rc), runID, io, old(Now(runID)))
        invariant forall r :: r != runID ==> store.Records(r) == old(store.Records(r))
      {
        var node := spec.nodes[i];
        if !(node.id in stateByID && stateByID[node.id] == Pending) {
          continue;
        }
        if !DepsTerminal(node.dependsOn, stateByID) {
          continue;
        }
        if !EvalConditions(node.conditions, rc) {
          var _ := store.UpsertNode(runID, node.id, Skipped, io.write(i));
          continue;
        }
        var ok := store.UpsertNode(runID, node.id, Running, io.write(i));
        if !ok {
          continue;
        }
        Launch(runID, node, io.send);
      }
      LoopDecides(spec.nodes, rc, runID, io, old(Now(runID)));
    }

    /** The loop that indexes the listed records by node id. */
    method StatesByID(rows: seq<NodeRecord>, ghost s: States) returns (stateByID: States)
      requires Lists(rows, s)
      ensures stateByID == s
    {
      stateByID := map[];
      for i := 0 to |rows|
        invariant stateByID.Keys == set j | 0 <= j < i :: rows[j].nodeID
        invariant forall j :: 0 <= j < i ==> stateByID[rows[j].nodeID] == rows[j].state
      {
        stateByID := stateByID[rows[i].nodeID := rows[i].state];
      }
      RowsGiveStates(rows, s, stateByID);
    }

    /** The switch over the node's kind. */
    method Launch(runID: string, node: Node, send: nat -> bool)
      modifies dispatcher, bus
      ensures Now(runID) == Fire(old(Now(runID)), runID, Targets(node), send)
    {
      var targets := Targets(node);
      match node.kind {
        case Unset =>
        case Job(job) =>
          Dispatch(runID, Target(node.id, Some(job)), send);
        case Stage(stage) =>
          for i := 0 to |stage.jobs|
            invariant Now(runID) == Fire(old(Now(runID)), runID, targets[..i], send)
          {
            var j := stage.jobs[i];
            assert targets[..i + 1][..i] == targets[..i] && targets[..i + 1][i] == Target(InnerID(node, j), GetJob(j));
            Dispatch(runID, Target(InnerID(node, j), GetJob(j)), send);
          }
          assert targets[..|stage.jobs|] == targets;
      }
    }
  }

  lemma RowsGiveStates(rows: seq<NodeRecord>, s: States, byID: States)
    requires Lists(rows, s)
    requires byID.Keys == set j | 0 <= j < |rows| :: rows[j].nodeID
    requires forall j :: 0 <= j < |rows| ==> byID[rows[j].nodeID] == rows[j].state
    ensures byID == s
  {
    forall id | id in s
      ensures id in byID && byID[id] == s[id]
    {
      var j :| 0 <= j < |rows| && rows[j] == NodeRecord(id, s[id]);
      assert rows[j].nodeID == id;
    }
  }

  // ---------------------------------------------------------------------------
  // The loop as one simultaneous step
  // ---------------------------------------------------------------------------

  /** Some node with this id gets this decision. */
  ghost predicate Decided(nodes: seq<Node>, snap: States, pass: Gate, id: string, d: Decision) {
    exists n :: n in nodes && n.id == id && Decide(n, snap, pass) == d
  }

  /** The state an Advance gives a record, read off the snapshot alone. */
  ghost function Next(nodes: seq<Node>, snap: States, pass: Gate, id: string): NodeState
    requires id in snap
  {
    if Decided(nodes, snap, pass, id, Launch) then Running
    else if Decided(nodes, snap, pass, id, Skip) then Skipped
    else snap[id]
  }

  ghost function Advanced(nodes: seq<Node>, snap: States, pass: Gate): (r: States)
    ensures r.Keys == snap.Keys
  {
    map id | id in snap :: Next(nodes, snap, pass, id)
  }

  ghost predicate NoWriteFaults(io: Io) {
    forall i :: io.write(i) == Applied
  }

  /** The calls a list of nodes makes when every decision is taken on one snapshot. */
  function Launched(nodes: seq<Node>, snap: States, pass: Gate, runID: string): multiset<Call> {
    if nodes == [] then multiset{}
    else Launched(nodes[..|nodes| - 1], snap, pass, runID) + multiset(CallsOf(nodes[|nodes| - 1], snap, pass, runID))
  }

  function CallsOf(n: Node, snap: States, pass: Gate, runID: string): seq<Call> {
    if Decide(n, snap, pass) == Launch then Calls(runID, Targets(n)) else []
  }

  function Calls(runID: string, targets: seq<Target>): (r: seq<Call>)
    ensures |r| == |targets| && forall i :: 0 <= i < |r| ==> r[i] == Call(runID, targets[i])
  {
    if targets == [] then [] else Calls(runID, targets[..|targets| - 1]) + [Call(runID, targets[|targets| - 1])]
  }

  lemma {:induction false} FireCalls(p: Progress, runID: string, targets: seq<Target>, send: nat -> bool)
    ensures Fire(p, runID, targets, send).states == p.states
    ensures Fire(p, runID, targets, send).calls == p.calls + Calls(runID, targets)
  {
    if targets != [] {
      FireCalls(p, runID, targets[..|targets| - 1], send);
    }
  }

  /** One iteration of the loop whose write succeeds. */
  lemma LoopStep(nodes: seq<Node>, k: nat, snap: States, pass: Gate, runID: string, io: Io, p: Progress)
    requires 0 < k <= |nodes| && NoWriteFaults(io)
    ensures var before, after := Loop(nodes, k - 1, snap, pass, runID, io, p), Loop(nodes, k, snap, pass, runID, io, p);
            && after.states == Effect(before.states, nodes[k - 1].id, Decide(nodes[k - 1], snap, pass))
            && after.calls == before.calls + CallsOf(nodes[k - 1], snap, pass, runID)
  {
    var n, before := nodes[k - 1], Loop(nodes, k - 1, snap, pass, runID, io, p);
    FireCalls(before.(states := before.states[n.id := Running]), runID, Targets(n), io.send);
  }

  lemma LoopStepCalls(nodes: seq<Node>, k: nat, snap: States, pass: Gate, runID: string, io: Io, p: Progress)
    requires 0 < k <= |nodes| && NoWriteFaults(io)
    ensures Loop(nodes, k, snap, pass, runID, io, p).calls ==
            Loop(nodes, k - 1, snap, pass, runID, io, p).calls + CallsOf(nodes[k - 1], snap, pass, runID)
  {
    LoopStep(nodes, k, snap, pass, runID, io, p);
  }

  /** With distinct ids and no failed write the loop is one simultaneous step over the snapshot. */
  lemma {:induction false} LoopIsSimultaneous(nodes: seq<Node>, k: nat, pass: Gate, runID: string, io: Io, p: Progress)
    requires Distinct(Ids(nodes)) && k <= |nodes| && NoWriteFaults(io)
    ensures Loop(nodes, k, p.states, pass, runID, io, p).states == Advanced(nodes[..k], p.states, pass)
  {
    if k == 0 {
      NothingAdvanced(nodes, p.states, pass);
    } else {
      LoopIsSimultaneous(nodes, k - 1, pass, runID, io, p);
      LoopStep(nodes, k, p.states, pass, runID, io, p);
      AdvancedLonger(nodes, k, p.states, pass);
    }
  }

  lemma NothingAdvanced(nodes: seq<Node>, snap: States, pass: Gate)
    ensures Advanced(nodes[..0], snap, pass) == snap
  {
    assert nodes[..0] == [];
  }

  /** A pending node whose dependencies have all succeeded or been skipped. */
  predicate IsDue(n: Node, s: States) {
    && n.id in s && s[n.id] == Pending
    && forall d :: d in n.dependsOn ==> d in s && (s[d] == Success || s[d] == Skipped)
  }

  /**
   * A due node with printed conditions is running if they all hold of the branch, the tag and the
   * event, and skipped if not; any other record is as it was.
   */
  ghost predicate DecidedByTests(nodes: seq<Node>, before: States, after: States, rc: RunContext) {
    && after.Keys == before.Keys
    && (forall n, ts :: n in nodes && n.conditions == Printed(ts) && IsDue(n, before) ==>
          after[n.id] == if forall t :: t in ts ==> Holds(t, rc.branch, rc.tag, rc.event) then Running else Skipped)
    && (forall id :: id in before && (forall n :: n in nodes && n.id == id ==> !IsDue(n, before)) ==> after[id] == before[id])
  }

  lemma DueNodeDecided(nodes: seq<Node>, n: Node, snap: States, rc: RunContext, ts: seq<Test>)
    requires Distinct(Ids(nodes)) && n in nodes && n.conditions == Printed(ts) && IsDue(n, snap)
    ensures Advanced(nodes, snap, GateOf(rc))[n.id] ==
            if forall t :: t in ts ==> Holds(t, rc.branch, rc.tag, rc.event) then Running else Skipped
  {
    PrintedConditionsMean(ts, rc);
    forall m | m in nodes && m.id == n.id
      ensures m == n
    {
      SameNode(nodes, m, n);
    }
    assert Decide(n, snap, GateOf(rc)) == if GateOf(rc)(n.conditions) then Launch else Skip;
  }

  lemma UndueNodeStays(nodes: seq<Node>, snap: States, pass: Gate, id: string)
    requires id in snap && forall n :: n in nodes && n.id == id ==> !IsDue(n, snap)
    ensures Advanced(nodes, snap, pass)[id] == snap[id]
  {
    forall n | n in nodes && n.id == id
      ensures Decide(n, snap, pass) == Leave
    {
      assert !IsDue(n, snap);
    }
  }

  lemma AdvancedDecides(nodes: seq<Node>, snap: States, rc: RunContext)
    requires Distinct(Ids(nodes))
    ensures DecidedByTests(nodes, snap, Advanced(nodes, snap, GateOf(rc)), rc)
  {
    forall n, ts | n in nodes && n.conditions == Printed(ts) && IsDue(n, snap)
      ensures Advanced(nodes, snap, GateOf(rc))[n.id] ==
              if forall t :: t in ts ==> Holds(t, rc.branch, rc.tag, rc.event) then Running else Skipped
    {
      DueNodeDecided(nodes, n, snap, rc, ts);
    }
    forall id | id in snap && forall n :: n in nodes && n.id == id ==> !IsDue(n, snap)
      ensures Advanced(nodes, snap, GateOf(rc))[id] == snap[id]
    {
      UndueNodeStays(nodes, snap, GateOf(rc), id);
    }
  }

  lemma LoopDecides(nodes: seq<Node>, rc: RunContext, runID: string, io: Io, p: Progress)
    ensures Distinct(Ids(nodes)) && NoWriteFaults(io) ==>
              DecidedByTests(nodes, p.states, Loop(nodes, |nodes|, p.states, GateOf(rc), runID, io, p).states, rc)
  {
    if Distinct(Ids(nodes)) && NoWriteFaults(io) {
      LoopIsSimultaneous(nodes, |nodes|, GateOf(rc), runID, io, p);
      TakeAll(nodes);
      AdvancedDecides(nodes, p.states, rc);
    }
  }

  /** It calls the dispatcher for exactly the nodes the snapshot launches. */
  lemma {:induction false} LoopCalls(nodes: seq<Node>, k: nat, pass: Gate, runID: string, io: Io, p: Progress)
    requires k <= |nodes| && NoWriteFaults(io)
    ensures multiset(Loop(nodes, k, p.states, pass, runID, io, p).calls) == multiset(p.calls) + Launched(nodes[..k], p.states, pass, runID)
  {
    if k == 0 {
      assert nodes[..0] == [];
    } else {
      LoopCalls(nodes, k - 1, pass, runID, io, p);
      LoopStepCalls(nodes, k, p.states, pass, runID, io, p);
      LaunchedNext(nodes, k, p.states, pass, runID);
      AppendToMultiset(p.calls, Loop(nodes, k - 1, p.states, pass, runID, io, p).calls, CallsOf(nodes[k - 1], p.states, pass, runID),
        Launched(nodes[..k - 1], p.states, pass, runID));
    }
  }

  lemma LaunchedNext(nodes: seq<Node>, k: nat, snap: States, pass: Gate, runID: string)
    requires 0 < k <= |nodes|
    ensures Launched(nodes[..k], snap, pass, runID) ==
            Launched(nodes[..k - 1], snap, pass, runID) + multiset(CallsOf(nodes[k - 1], snap, pass, runID))
  {
    TakeNext(nodes, k - 1);
    LaunchedSnoc(nodes[..k - 1], nodes[k - 1], snap, pass, runID);
  }

  lemma AppendToMultiset<T>(a: seq<T>, b: seq<T>, c: seq<T>, m: multiset<T>)
    requires multiset(b) == multiset(a) + m
    ensures multiset(b + c) == multiset(a) + (m + multiset(c))
  {
  }

  /** A call of the run for a node that the snapshot launches and that is marked running. */
  ghost predicate CallOfMarked(nodes: seq<Node>, snap: States, pass: Gate, runID: string, s: States, c: Call) {
    exists n :: n in nodes && Decide(n, snap, pass) == Launch && c in Calls(runID, Targets(n)) && n.id in s && s[n.id] == Running
  }

  /** The calls made since the first `from` are for marked nodes. */
  ghost predicate CallsMarked(nodes: seq<Node>, snap: States, pass: Gate, runID: string, q: Progress, from: nat) {
    from <= |q.calls| && forall i :: from <= i < |q.calls| ==> CallOfMarked(nodes, snap, pass, runID, q.states, q.calls[i])
  }

  /** Each record is as the snapshot has it, or as the simultaneous step makes it. */
  ghost predicate OldOrAdvanced(s: States, snap: States, next: States) {
    s.Keys == snap.Keys == next.Keys && forall id :: id in snap ==> s[id] == snap[id] || s[id] == next[id]
  }

  /**
   * Whatever writes fail, a record is left alone or gets the state of the simultaneous step, and
   * only nodes marked running are dispatched.
   */
  lemma {:induction false} LoopUnderFaults(nodes: seq<Node>, k: nat, pass: Gate, runID: string, io: Io, p: Progress)
    requires Distinct(Ids(nodes)) && k <= |nodes|
    ensures var q := Loop(nodes, k, p.states, pass, runID, io, p);
            && OldOrAdvanced(q.states, p.states, Advanced(nodes[..k], p.states, pass))
            && CallsMarked(nodes[..k], p.states, pass, runID, q, |p.calls|)
  {
    if k == 0 {
      NothingAdvanced(nodes, p.states, pass);
    } else {
      var before := Loop(nodes, k - 1, p.states, pass, runID, io, p);
      LoopUnderFaults(nodes, k - 1, pass, runID, io, p);
      FaultyStates(nodes, k, pass, runID, io, p.states, before);
      FaultyCalls(nodes, k, pass, runID, io, p.states, before, |p.calls|);
    }
  }

  /** What a node is dispatched as: a job with its own specification, a member of a stage with the member's. */
  predicate Carries(n: Node, t: Target) {
    match n.kind
    case Job(job) => t == Target(n.id, Some(job))
    case Stage(stage) => exists j :: j in stage.jobs && t == MemberTarget(n, j)
    case Unset => false
  }

  function MemberTarget(n: Node, j: Node): Target {
    Target(n.id + "/" + j.id, match j.kind case Job(job) => Some(job) case _ => None)
  }

  lemma TargetsCarry(n: Node)
    ensures forall t :: t in Targets(n) ==> Carries(n, t)
    ensures n.kind.Job? ==> |Targets(n)| == 1
    ensures n.kind.Stage? ==> |Targets(n)| == |n.kind.stage.jobs|
    ensures n.kind.Stage? ==> forall i :: 0 <= i < |n.kind.stage.jobs| ==> Targets(n)[i] == MemberTarget(n, n.kind.stage.jobs[i])
  {
    forall t | t in Targets(n)
      ensures Carries(n, t)
    {
      if n.kind.Stage? {
        var i :| 0 <= i < |Targets(n)| && Targets(n)[i] == t;
        assert n.kind.stage.jobs[i] in n.kind.stage.jobs;
      }
    }
  }

  /** A call of the run for a node marked running, which carries its job or the member's. */
  ghost predicate CarriedCall(nodes: seq<Node>, runID: string, s: States, c: Call) {
    c.runID == runID && exists n :: n in nodes && Is(s, n.id, Running) && Carries(n, c.target)
  }

  /** Whatever fails, every call made is such a call. */
  lemma LoopCarriesJobs(nodes: seq<Node>, pass: Gate, runID: string, io: Io, p: Progress)
    requires Distinct(Ids(nodes))
    ensures var q := Loop(nodes, |nodes|, p.states, pass, runID, io, p);
            |p.calls| <= |q.calls| && forall i :: |p.calls| <= i < |q.calls| ==> CarriedCall(nodes, runID, q.states, q.calls[i])
  {
    var q := Loop(nodes, |nodes|, p.states, pass, runID, io, p);
    LoopUnderFaults(nodes, |nodes|, pass, runID, io, p);
    TakeAll(nodes);
    forall i | |p.calls| <= i < |q.calls|
      ensures CarriedCall(nodes, runID, q.states, q.calls[i])
    {
      MarkedIsCarried(nodes, p.states, pass, runID, q.states, q.calls[i]);
    }
  }

  lemma CallIsTarget(runID: string, targets: seq<Target>, c: Call)
    requires c in Calls(runID, targets)
    ensures c.runID == runID && c.target in targets
  {
  }

  lemma MarkedIsCarried(nodes: seq<Node>, snap: States, pass: Gate, runID: string, s: States, c: Call)
    requires CallOfMarked(nodes, snap, pass, runID, s, c)
    ensures CarriedCall(nodes, runID, s, c)
  {
    var n :| n in nodes && c in Calls(runID, Targets(n)) && Is(s, n.id, Running);
    CallIsTarget(runID, Targets(n), c);
    TargetsCarry(n);
  }

  lemma FaultyStates(nodes: seq<Node>, k: nat, pass: Gate, runID: string, io: Io, snap: States, before: Progress)
    requires Distinct(Ids(nodes)) && 0 < k <= |nodes|
    requires OldOrAdvanced(before.states, snap, Advanced(nodes[..k - 1], snap, pass))
    ensures var q := Step(before, nodes[k - 1], snap, pass, runID, io.write(k - 1), io.send);
            OldOrAdvanced(q.states, snap, Advanced(nodes[..k], snap, pass))
  {
    var n, next := nodes[k - 1], Advanced(nodes[..k - 1], snap, pass);
    var q := Step(before, n, snap, pass, runID, io.write(k - 1), io.send);
    StepStates(before, n, snap, pass, runID, io.write(k - 1), io.send);
    NotYetAdvanced(nodes, k, snap, pass);
    OldOrEffect(before.states, q.states, snap, next, n.id, Decide(n, snap, pass));
    AdvancedLonger(nodes, k, snap, pass);
  }

  /** A step has the effect of its decision on the records, or none. */
  lemma StepStates(p: Progress, n: Node, snap: States, pass: Gate, runID: string, w: Write, send: nat -> bool)
    ensures Step(p, n, snap, pass, runID, w, send).states in [p.states, Effect(p.states, n.id, Decide(n, snap, pass))]
  {
    FireCalls(p.(states := p.states[n.id := Running]), runID, Targets(n), send);
  }

  lemma NotYetAdvanced(nodes: seq<Node>, k: nat, snap: States, pass: Gate)
    requires Distinct(Ids(nodes)) && 0 < k <= |nodes|
    ensures nodes[k - 1].id in snap ==> Advanced(nodes[..k - 1], snap, pass)[nodes[k - 1].id] == snap[nodes[k - 1].id]
  {
    EarlierNodes(nodes, k);
  }

  lemma OldOrEffect(s: States, t: States, snap: States, next: States, id: string, d: Decision)
    requires OldOrAdvanced(s, snap, next) && t in [s, Effect(s, id, d)]
    requires d == Leave || (id in snap && next[id] == snap[id])
    ensures OldOrAdvanced(t, snap, Effect(next, id, d))
  {
  }

  lemma FaultyCalls(nodes: seq<Node>, k: nat, pass: Gate, runID: string, io: Io, snap: States, before: Progress, from: nat)
    requires Distinct(Ids(nodes)) && 0 < k <= |nodes|
    requires CallsMarked(nodes[..k - 1], snap, pass, runID, before, from)
    ensures var q := Step(before, nodes[k - 1], snap, pass, runID, io.write(k - 1), io.send);
            CallsMarked(nodes[..k], snap, pass, runID, q, from)
  {
    var n, q := nodes[k - 1], Step(before, nodes[k - 1], snap, pass, runID, io.write(k - 1), io.send);
    FireCalls(before.(states := before.states[n.id := Running]), runID, Targets(n), io.send);
    EarlierNodes(nodes, k);
    forall i | from <= i < |q.calls|
      ensures CallOfMarked(nodes[..k], snap, pass, runID, q.states, q.calls[i])
    {
      if i < |before.calls| {
        StillMarked(nodes, k, snap, pass, runID, before.states, q.states, before.calls[i]);
      } else {
        assert q.calls[i] == Calls(runID, Targets(n))[i - |before.calls|];
      }
    }
  }

  /** A node marked earlier stays marked when a later one is visited. */
  lemma StillMarked(nodes: seq<Node>, k: nat, snap: States, pass: Gate, runID: string, s: States, t: States, c: Call)
    requires Distinct(Ids(nodes)) && 0 < k <= |nodes|
    requires CallOfMarked(nodes[..k - 1], snap, pass, runID, s, c)
    requires forall id :: id in s && id != nodes[k - 1].id ==> id in t && t[id] == s[id]
    ensures CallOfMarked(nodes[..k], snap, pass, runID, t, c)
  {
    EarlierNodes(nodes, k);
  }

  /** The last of the first `k` nodes and those before it. */
  lemma EarlierNodes(nodes: seq<Node>, k: nat)
    requires Distinct(Ids(nodes)) && 0 < k <= |nodes|
    ensures nodes[k - 1] in nodes[..k]
    ensures forall m :: m in nodes[..k - 1] ==> m in nodes[..k] && m.id != nodes[k - 1].id
  {
    TakeNext(nodes, k - 1);
    forall m | m in nodes[..k - 1]
      ensures m.id != nodes[k - 1].id
    {
      var i :| 0 <= i < k - 1 && nodes[i] == m;
      assert Ids(nodes)[i] != Ids(nodes)[k - 1];
    }
  }

  lemma DecidedLonger(nodes: seq<Node>, k: nat, snap: States, pass: Gate, id: string, d: Decision)
    requires Distinct(Ids(nodes)) && 0 < k <= |nodes|
    ensures Decided(nodes[..k], snap, pass, id, d) <==>
            if id == nodes[k - 1].id then Decide(nodes[k - 1], snap, pass) == d
            else Decided(nodes[..k - 1], snap, pass, id, d)
  {
    var n := nodes[k - 1];
    forall m | m in nodes[..k - 1]
      ensures m.id != n.id && m in nodes[..k]
    {
      var i :| 0 <= i < k - 1 && nodes[i] == m;
      assert Ids(nodes)[i] != Ids(nodes)[k - 1];
    }
    assert nodes[..k] == nodes[..k - 1] + [n];
    assert n in nodes[..k];
  }

  /** The effect of one decision on the records. */
  function Effect(s: States, id: string, d: Decision): States {
    match d
    case Leave => s
    case Skip => s[id := Skipped]
    case Launch => s[id := Running]
  }

  /** One more node changes the step at its own id only. */
  lemma AdvancedLonger(nodes: seq<Node>, k: nat, snap: States, pass: Gate)
    requires Distinct(Ids(nodes)) && 0 < k <= |nodes|
    ensures var n := nodes[k - 1];
            Advanced(nodes[..k], snap, pass) == Effect(Advanced(nodes[..k - 1], snap, pass), n.id, Decide(n, snap, pass))
  {
    var n := nodes[k - 1];
    forall id | id in snap
      ensures Next(nodes[..k], snap, pass, id) ==
              if id == n.id && Decide(n, snap, pass) == Launch then Running
              else if id == n.id && Decide(n, snap, pass) == Skip then Skipped
              else Next(nodes[..k - 1], snap, pass, id)
    {
      DecidedLonger(nodes, k, snap, pass, id, Launch);
      DecidedLonger(nodes, k, snap, pass, id, Skip);
    }
  }

  lemma LaunchedSnoc(nodes: seq<Node>, n: Node, snap: States, pass: Gate, runID: string)
    ensures Launched(nodes + [n], snap, pass, runID) == Launched(nodes, snap, pass, runID) + multiset(CallsOf(n, snap, pass, runID))
  {
    Snoc(nodes, n);
  }

  /** Taking a node out of the list takes its calls out, wherever it stands. */
  lemma {:induction false} LaunchedWithout(a: seq<Node>, n: Node, b: seq<Node>, snap: States, pass: Gate, runID: string)
    ensures Launched(a + [n] + b, snap, pass, runID) ==
            Launched(a + b, snap, pass, runID) + multiset(CallsOf(n, snap, pass, runID))
    decreases |b|
  {
    if b == [] {
      AppendEmpty(a);
      AppendEmpty(a + [n]);
      LaunchedSnoc(a, n, snap, pass, runID);
    } else {
      var start, last := b[..|b| - 1], b[|b| - 1];
      LaunchedWithout(a, n, start, snap, pass, runID);
      SplitLast(b);
      Regroup(a, n, start, last);
      LaunchedSnoc(a + [n] + start, last, snap, pass, runID);
      LaunchedSnoc(a + start, last, snap, pass, runID);
    }
  }

  /** Where the last element of one list stands in a permutation of it. */
  lemma SameElementsWithout<T>(a: seq<T>, b: seq<T>) returns (i: nat)
    requires multiset(a) == multiset(b) && a != []
    ensures i < |b| && b[i] == a[|a| - 1]
    ensures multiset(a[..|a| - 1]) == multiset(b[..i] + b[i + 1..])
  {
    var last := |a| - 1;
    assert a == a[..last] + [a[last]];
    assert a[last] in multiset(b);
    i :| 0 <= i < |b| && b[i] == a[last];
    assert b == b[..i] + [b[i]] + b[i + 1..];
    calc {
      multiset(b[..i] + b[i + 1..]);
      multiset(b) - multiset{b[i]};
      multiset(a) - multiset{a[last]};
      multiset(a[..last]);
    }
  }

  lemma {:induction false} LaunchedPermuted(a: seq<Node>, b: seq<Node>, snap: States, pass: Gate, runID: string)
    requires multiset(a) == multiset(b)
    ensures Launched(a, snap, pass, runID) == Launched(b, snap, pass, runID)
    decreases |a|
  {
    if a == [] {
      assert |b| == |multiset(b)| == 0;
    } else {
      var start, n := a[..|a| - 1], a[|a| - 1];
      var i := SameElementsWithout(a, b);
      LaunchedWithout(b[..i], n, b[i + 1..], snap, pass, runID);
      SplitAt(b, i);
      SplitLast(a);
      LaunchedSnoc(start, n, snap, pass, runID);
      LaunchedPermuted(start, b[..i] + b[i + 1..], snap, pass, runID);
    }
  }

  lemma AdvancedPermuted(a: seq<Node>, b: seq<Node>, snap: States, pass: Gate)
    requires multiset(a) == multiset(b)
    ensures Advanced(a, snap, pass) == Advanced(b, snap, pass)
  {
    forall n
      ensures n in a <==> n in b
    {
      assert n in a <==> n in multiset(a);
      assert n in b <==> n in multiset(b);
    }
    forall id, d
      ensures Decided(a, snap, pass, id, d) <==> Decided(b, snap, pass, id, d)
    {
    }
  }

  /** The order of the nodes in the specification decides nothing but the order of the calls. */
  lemma AdvanceIgnoresNodeOrder(a: seq<Node>, b: seq<Node>, pass: Gate, runID: string, io: Io, p: Progress)
    requires multiset(a) == multiset(b) && Distinct(Ids(a)) && Distinct(Ids(b)) && NoWriteFaults(io)
    ensures |a| == |b|
    ensures Loop(a, |a|, p.states, pass, runID, io, p).states == Loop(b, |b|, p.states, pass, runID, io, p).states
    ensures multiset(Loop(a, |a|, p.states, pass, runID, io, p).calls) == multiset(Loop(b, |b|, p.states, pass, runID, io, p).calls)
  {
    assert |a| == |multiset(a)| == |multiset(b)| == |b|;
    assert a[..|a|] == a && b[..|b|] == b;
    LoopIsSimultaneous(a, |a|, pass, runID, io, p);
    LoopIsSimultaneous(b, |b|, pass, runID, io, p);
    LoopCalls(a, |a|, pass, runID, io, p);
    LoopCalls(b, |b|, pass, runID, io, p);
    LaunchedPermuted(a, b, p.states, pass, runID);
    AdvancedPermuted(a, b, p.states, pass);
  }

  // ---------------------------------------------------------------------------
  // Events
  // ---------------------------------------------------------------------------

  /** The events of the calls made from the given one on: one for each whose send succeeded, in order. */
  function Announced(calls: seq<Call>, from: nat, send: nat -> bool): seq<Event> {
    if |calls| <= from then []
    else
      var last := |calls| - 1;
      Announced(calls[..last], from, send) + if send(last) then [JobDispatched(calls[last].target.nodeID)] else []
  }

  /** Since `start` nothing was published but the dispatches that succeeded. */
  predicate Announces(start: Progress, p: Progress, send: nat -> bool) {
    |start.calls| <= |p.calls| && p.events == start.events + Announced(p.calls, |start.calls|, send)
  }

  lemma {:induction false} FireAnnounces(start: Progress, p: Progress, runID: string, targets: seq<Target>, send: nat -> bool)
    requires Announces(start, p, send)
    ensures Announces(start, Fire(p, runID, targets, send), send)
  {
    if targets != [] {
      var q, t := Fire(p, runID, targets[..|targets| - 1], send), targets[|targets| - 1];
      FireAnnounces(start, p, runID, targets[..|targets| - 1], send);
      Snoc(q.calls, Call(runID, t));
      AppendEmpty(q.events);
      Associative(start.events, Announced(q.calls, |start.calls|, send), [JobDispatched(t.nodeID)]);
      AppendEmpty(Announced(q.calls, |start.calls|, send));
    }
  }

  /** Whatever fails, the loop publishes exactly the dispatches that succeeded, in the order of the calls. */
  lemma {:induction false} LoopAnnounces(nodes: seq<Node>, k: nat, snap: States, pass: Gate, runID: string, io: Io, p: Progress)
    requires k <= |nodes|
    ensures Announces(p, Loop(nodes, k, snap, pass, runID, io, p), io.send)
  {
    if k == 0 {
      AppendEmpty(p.events);
    } else {
      var q, n := Loop(nodes, k - 1, snap, pass, runID, io, p), nodes[k - 1];
      LoopAnnounces(nodes, k - 1, snap, pass, runID, io, p);
      if Decide(n, snap, pass) == Launch && io.write(k - 1) == Applied {
        FireAnnounces(p, q.(states := q.states[n.id := Running]), runID, Targets(n), io.send);
      }
    }
  }

  // ---------------------------------------------------------------------------
  // A second call
  // ---------------------------------------------------------------------------

  /** A dependency is, or is about to be, settled: success, skipped, or skipped by this very call. */
  predicate SettledBy(nodes: seq<Node>, snap: States, pass: Gate, d: string) {
    Settled(snap, d) || (d in snap && exists m :: m in nodes && m.id == d && Decide(m, snap, pass) == Skip)
  }

  /** A pending node that is not ready, but all of whose dependencies are or are about to be settled. */
  predicate WaitsForSkips(nodes: seq<Node>, n: Node, snap: States, pass: Gate) {
    && n.id in snap && snap[n.id] == Pending && !Ready(n, snap)
    && forall d :: d in n.dependsOn ==> SettledBy(nodes, snap, pass, d)
  }

  predicate NothingUnblockedBySkips(nodes: seq<Node>, snap: States, pass: Gate) {
    forall n :: n in nodes ==> !WaitsForSkips(nodes, n, snap, pass)
  }

  lemma AdvancedSettles(nodes: seq<Node>, snap: States, pass: Gate, d: string)
    requires Distinct(Ids(nodes))
    ensures Settled(Advanced(nodes, snap, pass), d) <==> SettledBy(nodes, snap, pass, d)
  {
    forall m, n | m in nodes && n in nodes && m.id == n.id
      ensures m == n
    {
      SameNode(nodes, m, n);
    }
  }

  lemma SameNode(nodes: seq<Node>, m: Node, n: Node)
    requires Distinct(Ids(nodes)) && m in nodes && n in nodes && m.id == n.id
    ensures m == n
  {
    var i, j :| 0 <= i < |nodes| && 0 <= j < |nodes| && nodes[i] == m && nodes[j] == n;
    assert Ids(nodes)[i] == Ids(nodes)[j];
  }

  /**
   * A second consecutive call dispatches no node the first one dispatched. It changes nothing
   * exactly when the first one skipped no node on which a waiting node depended last.
   */
  lemma SecondAdvance(nodes: seq<Node>, snap: States, pass: Gate)
    requires Distinct(Ids(nodes))
    ensures var once := Advanced(nodes, snap, pass);
            && (forall n :: n in nodes && Decide(n, snap, pass) != Leave ==> Decide(n, once, pass) == Leave)
            && (Advanced(nodes, once, pass) == once <==> NothingUnblockedBySkips(nodes, snap, pass))
  {
    var once := Advanced(nodes, snap, pass);
    forall n | n in nodes && n.id in snap
      ensures (once[n.id] == Pending <==> snap[n.id] == Pending && !Ready(n, snap))
      ensures Ready(n, once) <==> WaitsForSkips(nodes, n, snap, pass)
    {
      ReadyAfterAdvance(nodes, n, snap, pass);
    }
    if NothingUnblockedBySkips(nodes, snap, pass) {
      assert forall n :: n in nodes ==> !Ready(n, once);
    } else {
      var n :| n in nodes && n.id in snap && WaitsForSkips(nodes, n, snap, pass);
      assert Decide(n, once, pass) != Leave && once[n.id] == Pending;
      assert Advanced(nodes, once, pass)[n.id] != Pending;
    }
  }

  /** A node becomes ready by an Advance exactly when it was left waiting for nodes this Advance skips. */
  lemma ReadyAfterAdvance(nodes: seq<Node>, n: Node, snap: States, pass: Gate)
    requires Distinct(Ids(nodes)) && n in nodes && n.id in snap
    ensures var once := Advanced(nodes, snap, pass);
            && (once[n.id] == Pending <==> snap[n.id] == Pending && !Ready(n, snap))
            && (Ready(n, once) <==> WaitsForSkips(nodes, n, snap, pass))
  {
    forall m | m in nodes && m.id == n.id
      ensures m == n
    {
      SameNode(nodes, m, n);
    }
    forall d { AdvancedSettles(nodes, snap, pass, d); }
  }

  /** Two consecutive calls are not one: on branch dev the first skips `a`, the second launches `b` behind it. */
  lemma AdvanceIsNotIdempotent(job: JobSpec)
    ensures var a, b := Node("a", [], [OnBranch("main")], Job(job)), Node("b", ["a"], [], Job(job));
            var snap: States := map["a" := Pending, "b" := Pending];
            var pass := GateOf(RunContext("dev", "", ""));
            var once := Advanced([a, b], snap, pass);
            && once["a"] == Skipped && once["b"] == Pending
            && Advanced([a, b], once, pass)["b"] == Running
  {
    var a, b := Node("a", [], [OnBranch("main")], Job(job)), Node("b", ["a"], [], Job(job));
    MainFailsOnDev(RunContext("dev", "", ""));
    SkipThenLaunch(a, b, GateOf(RunContext("dev", "", "")));
  }

  lemma SkipThenLaunch(a: Node, b: Node, pass: Gate)
    requires a.id != b.id && a.dependsOn == [] && b.dependsOn == [a.id] && !pass(a.conditions) && pass(b.conditions)
    ensures var snap: States := map[a.id := Pending, b.id := Pending];
            var once := Advanced([a, b], snap, pass);
            && once[a.id] == Skipped && once[b.id] == Pending && Advanced([a, b], once, pass)[b.id] == Running
  {
    var snap: States := map[a.id := Pending, b.id := Pending];
    assert a in [a, b] && b in [a, b] && a.id in b.dependsOn && !Settled(snap, a.id);
    assert Decided([a, b], snap, pass, a.id, Skip);
    var once := Advanced([a, b], snap, pass);
    assert Settled(once, a.id) && DepsTerminal(b.dependsOn, once);
    assert Decided([a, b], once, pass, b.id, Launch);
  }

  /** The printed condition for branch main does not pass elsewhere; no condition passes everywhere. */
  lemma MainFailsOnDev(rc: RunContext)
    requires rc.branch == "dev"
    ensures !GateOf(rc)([OnBranch("main")]) && GateOf(rc)([])
  {
    PrintedConditionMeans("main", rc);
    Text.TrimTight("main", Conditions.IsSpace);
    assert OnBranch("main") in [OnBranch("main")];
  }
}
