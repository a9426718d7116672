/** The run manager: seeding a run, recording an outcome, finalising. */
module Manager {
  import opened Messages
  import opened DepGraph
  import opened Store
  import opened Scheduler

  /** The ids of all records of a run: each node, followed by the members of a stage. */
  function RecordIDs(nodes: seq<Node>): seq<string> {
    if nodes == [] then []
    else RecordIDs(nodes[..|nodes| - 1]) + OwnIDs(nodes[|nodes| - 1])
  }

  function OwnIDs(n: Node): seq<string> {
    [n.id] + if n.kind.Stage? then InnerIDs(n, n.kind.stage.jobs) else []
  }

  function InnerIDs(n: Node, jobs: seq<Node>): (ids: seq<string>)
    ensures |ids| == |jobs| && forall i :: 0 <= i < |jobs| ==> ids[i] == InnerID(n, jobs[i])
  {
    seq(|jobs|, i requires 0 <= i < |jobs| => InnerID(n, jobs[i]))
  }

  /** The records of a freshly started run. */
  function Seeded(ids: set<string>): (s: States)
    ensures forall id :: id in s <==> id in ids
    ensures forall id :: id in s ==> s[id] == Pending
  {
    map id | id in ids :: Pending
  }

  function Outcome(success: bool): NodeState {
    if success then Success else Failed
  }

  predicate Terminal(st: NodeState) {
    st != Pending && st != Running
  }

  predicate AllTerminal<ID>(s: Table<ID>) {
    forall id :: id in s ==> Terminal(s[id])
  }

  /** The state of a run all of whose records are terminal. */
  function FinalState<ID>(s: Table<ID>): RunState {
    if exists id :: id in s && s[id] == Failed then RunFailed else RunSuccess
  }

  datatype StartError = CreateFailed | SeedFailed | UpdateFailed

  /** The outcomes of the writes of one Start: the insert, the n-th seed, the final update. */
  datatype StartIo = StartIo(create: Write, seed: nat -> Write, update: Write)

  /** The outcomes of the operations of one NodeCompleted. */
  datatype ReportIo = ReportIo(upsert: Write, list: bool, update: Write)

  /** A report goes on to update the run when it reads back nothing but terminal records. */
  predicate Finalises<ID>(s: Table<ID>, io: ReportIo) {
    io.upsert == Applied && io.list && AllTerminal(s)
  }

  function ReportEvents(s: States, runID: string, nodeID: string, success: bool, io: ReportIo): seq<Event> {
    (if io.upsert != Applied then [] else [if success then JobCompleted(nodeID) else JobFailed(nodeID)])
    + if Finalises(s, io) && io.update == Applied then [RunCompleted(runID)] else []
  }

  /** Every record reads success, failed or skipped. */
  predicate AllDone(s: States) {
    forall id :: id in s ==> s[id] in {Success, Failed, Skipped}
  }

  /** One event for the node, as its record reads; behind it one for the run exactly if it is complete. */
  predicate ReportTold(s: States, runID: string, nodeID: string, before: seq<Event>, after: seq<Event>, complete: bool) {
    && nodeID in s && (s[nodeID] == Success || s[nodeID] == Failed)
    && |after| == |before| + (if complete then 2 else 1) && before <= after
    && (s[nodeID] == Success <==> after[|before|] == JobCompleted(nodeID))
    && (s[nodeID] == Failed <==> after[|before|] == JobFailed(nodeID))
    && (complete ==> after[|before| + 1] == RunCompleted(runID))
  }

  /** The row of the run is written, failed exactly if some record failed, and only if it is to be and is there. */
  predicate FinalRow(before: map<string, RunState>, after: map<string, RunState>, s: States, runID: string, written: bool) {
    && after.Keys == before.Keys
    && (forall r :: r in before && !(written && r == runID) ==> after[r] == before[r])
    && (written && runID in before ==>
          after[runID] == if exists id :: id in s && s[id] == Failed then RunFailed else RunSuccess)
  }

  lemma AllDoneIsTerminal(s: States)
    ensures AllDone(s) <==> AllTerminal(s)
  {
  }

  /** The row of the run after a report. */
  function ReportRuns(runs: map<string, RunState>, s: States, runID: string, io: ReportIo): map<string, RunState> {
    if Finalises(s, io) && io.update != Lost && runID in runs then runs[runID := FinalState(s)] else runs
  }

  /** The events and the row of a report whose write succeeded, read off the records it left. */
  lemma ReportMeans(s: States, runID: string, nodeID: string, success: bool, io: ReportIo, before: seq<Event>, runs: map<string, RunState>)
    requires io.upsert == Applied && nodeID in s && s[nodeID] == if success then Success else Failed
    ensures ReportTold(s, runID, nodeID, before, before + ReportEvents(s, runID, nodeID, success, io),
              io.list && AllDone(s) && io.update == Applied)
    ensures FinalRow(runs, ReportRuns(runs, s, runID, io), s, runID, io.list && AllDone(s) && io.update != Lost)
  {
    AllDoneIsTerminal(s);
  }

  class Manager {
    const store: Tables
    const bus: Bus

    constructor (store: Tables, bus: Bus)
      ensures this.store == store && this.bus == bus
    {
      this.store, this.bus := store, bus;
    }

    /**
     * Creates the run and seeds its records. The background Advance the source starts at the end
     * is a step of the runs in the modules on interleavings.
     */
    method Start(runID: string, spec: PipelineSpec, io: StartIo) returns (r: Result<string, StartError>)
      requires runID !in store.runs && store.Records(runID) == map[]
      modifies store, bus
      ensures r.Ok? ==>
                && r.value == runID && store.runs == old(store.runs)[runID := RunRunning]
                && store.Records(runID) == Seeded(ToSet(RecordIDs(spec.nodes)))
                && bus.events == old(bus.events) + [TriggerReceived(runID)]
      ensures r.Err? ==> bus.events == old(bus.events) && forall id :: id in store.Records(runID) ==>
                id in RecordIDs(spec.nodes) && store.Records(runID)[id] == Pending
      ensures r == Err(CreateFailed) <==> io.create != Applied
      ensures r == Err(UpdateFailed) ==> io.update != Applied && store.Records(runID) == Seeded(ToSet(RecordIDs(spec.nodes)))
      ensures r == Err(CreateFailed) ==> store.runs == if io.create == Lost then old(store.runs) else old(store.runs)[runID := RunPending]
      ensures r == Err(SeedFailed) ==> store.runs == old(store.runs)[runID := RunPending]
      ensures r == Err(UpdateFailed) ==> store.runs == old(store.runs)[runID := if io.update == Lost then RunPending else RunRunning]
      ensures io.create == io.update == Applied && (forall i :: io.seed(i) == Applied) ==> r.Ok?
      ensures forall other :: other != runID ==> store.Records(other) == old(store.Records(other))
      ensures forall other :: other in old(store.runs) ==> other in store.runs && store.runs[other] == old(store.runs)[other]
    {
      var ok := store.CreateRun(runID, io.create);
      if !ok {
        return Err(CreateFailed);
      }
      var n := 0;
      for i := 0 to |spec.nodes|
        invariant store.runs == old(store.runs)[runID := RunPending] && bus.events == old(bus.events)
        invariant store.Records(runID) == Seeded(ToSet(RecordIDs(spec.nodes[..i])))
        invariant forall other :: other != runID ==> store.Records(other) == old(store.Records(other))
      {
        NextSeeds(spec.nodes, i);
        ghost var before := ToSet(RecordIDs(spec.nodes[..i]));
        ghost var done;
        ok, n, done := SeedNode(runID, spec.nodes[i], io.seed, n, before);
        if !ok {
          return Err(SeedFailed);
        }
      }
      assert spec.nodes[..|spec.nodes|] == spec.nodes;
      ok := store.UpdateRunState(runID, RunRunning, io.update);
      if !ok {
        return Err(UpdateFailed);
      }
      bus.Publish(TriggerReceived(runID));
      return Ok(runID);
    }

    /** Seeds one record. */
    method Seed(runID: string, id: string, w: Write, ghost done: set<string>) returns (ok: bool, ghost now: set<string>)
      requires store.Records(runID) == Seeded(done)
      modifies store`nodes
      ensures now == (if w == Lost then done else done + {id}) && store.Records(runID) == Seeded(now)
      ensures ok <==> w == Applied
      ensures forall other :: other != runID ==> store.Records(other) == old(store.Records(other))
    {
      ok := store.UpsertNode(runID, id, Pending, w);
      now := if w == Lost then done else done + {id};
    }

    /** Seeds the records of a stage's members; `n` counts the writes. */
    method SeedMembers(runID: string, node: Node, jobs: seq<Node>, seed: nat -> Write, n: nat, ghost before: set<string>)
      returns (ok: bool, m: nat, ghost done: set<string>)
      requires store.Records(runID) == Seeded(before)
      modifies store`nodes
      ensures store.Records(runID) == Seeded(done) && done <= before + ToSet(InnerIDs(node, jobs))
      ensures ok ==> done == before + ToSet(InnerIDs(node, jobs))
      ensures (forall i :: seed(i) == Applied) ==> ok
      ensures forall other :: other != runID ==> store.Records(other) == old(store.Records(other))
    {
      ok, m, done := true, n, before;
      ghost var inner := InnerIDs(node, jobs);
      for k := 0 to |jobs|
        invariant ok && store.Records(runID) == Seeded(done)
        invariant forall x :: x in done <==> x in before || x in inner[..k]
        invariant forall other :: other != runID ==> store.Records(other) == old(store.Records(other))
      {
        TakeNext(inner, k);
        ok, done := Seed(runID, InnerID(node, jobs[k]), seed(m), done);
        m := m + 1;
        if !ok {
          return;
        }
      }
      TakeAll(inner);
    }

    /** Seeds the record of one node and, for a stage, those of its members. */
    method SeedNode(runID: string, node: Node, seed: nat -> Write, n: nat, ghost before: set<string>)
      returns (ok: bool, m: nat, ghost done: set<string>)
      requires store.Records(runID) == Seeded(before)
      modifies store`nodes
      ensures store.Records(runID) == Seeded(done) && done <= before + ToSet(OwnIDs(node))
      ensures ok ==> done == before + ToSet(OwnIDs(node))
      ensures (forall i :: seed(i) == Applied) ==> ok
      ensures forall other :: other != runID ==> store.Records(other) == old(store.Records(other))
    {
      m := n + 1;
      ok, done := Seed(runID, node.id, seed(n), before);
      OwnSet(node);
      if ok && node.kind.Stage? {
        ok, m, done := SeedMembers(runID, node, node.kind.stage.jobs, seed, m, done);
      }
    }

    /** Records the outcome; if the list it reads back is all terminal, finalises the run. */
    method NodeCompleted(runID: string, nodeID: string, success: bool, io: ReportIo) returns (ok: bool)
      modifies store, bus
      ensures store.Records(runID) == Written(old(store.Records(runID)), nodeID, Outcome(success), io.upsert)
      ensures forall other :: other != runID ==> store.Records(other) == old(store.Records(other))
      ensures store.runs == ReportRuns(old(store.runs), store.Records(runID), runID, io)
      ensures bus.events == old(bus.events) + ReportEvents(store.Records(runID), runID, nodeID, success, io)
      // a lost write changes and publishes nothing, any other leaves the outcome in the record
      ensures store.Records(runID) ==
              if io.upsert == Lost then old(store.Records(runID)) else old(store.Records(runID))[nodeID := if success then Success else Failed]
      ensures io.upsert != Applied ==> bus.events == old(bus.events) && store.runs == old(store.runs)
      // the first new event says what the record now reads, the only other one that the run is complete
      ensures io.upsert == Applied ==> ReportTold(store.Records(runID), runID, nodeID, old(bus.events), bus.events,
                io.list && AllDone(store.Records(runID)) && io.update == Applied)
      ensures io.upsert == Applied ==> FinalRow(old(store.runs), store.runs, store.Records(runID), runID,
                io.list && AllDone(store.Records(runID)) && io.update != Lost)
      ensures ok <==> io.upsert == Applied && io.list && (AllTerminal(store.Records(runID)) ==> io.update == Applied)
    {
      var state, event := Success, JobCompleted(nodeID);
      if !success {
        state, event := Failed, JobFailed(nodeID);
      }
      ok := store.UpsertNode(runID, nodeID, state, io.upsert);
      if !ok {
        return false;
      }
      bus.Publish(event);
      ghost var s := store.Records(runID);
      ReportMeans(s, runID, nodeID, success, io, old(bus.events), old(store.runs));
      ok := FinaliseIfDone(runID, io.list, io.update);
    }

    /** Lists the records and, if all are terminal, updates the run and publishes its completion. */
    method FinaliseIfDone(runID: string, list: bool, update: Write) returns (ok: bool)
      modifies store`runs, bus
      ensures var s := store.Records(runID);
              && store.runs == (if list && AllTerminal(s) && update != Lost && runID in old(store.runs)
                                then old(store.runs)[runID := FinalState(s)] else old(store.runs))
              && bus.events == old(bus.events) + (if list && AllTerminal(s) && update == Applied then [RunCompleted(runID)] else [])
              && (ok <==> list && (AllTerminal(s) ==> update == Applied))
    {
      if !list {
        return false;
      }
      var nodes := store.ListNodes(runID);
      RowsTerminal(nodes, store.Records(runID));
      if forall n :: n in nodes ==> Terminal(n.state) {
        var finalState := FinalStateOf(nodes);
        ok := store.UpdateRunState(runID, finalState, update);
        if !ok {
          return false;
        }
        bus.Publish(RunCompleted(runID));
      }
      return true;
    }

    /** The loop that looks for a failed record and stops at the first. */
    method FinalStateOf(nodes: seq<NodeRecord>) returns (finalState: RunState)
      ensures finalState == if exists k :: 0 <= k < |nodes| && nodes[k].state == Failed then RunFailed else RunSuccess
    {
      finalState := RunSuccess;
      for i := 0 to |nodes|
        invariant finalState == RunSuccess && forall k :: 0 <= k < i ==> nodes[k].state != Failed
      {
        if nodes[i].state == Failed {
          return RunFailed;
        }
      }
    }
  }

  lemma OwnSet(node: Node)
    ensures ToSet(OwnIDs(node)) == {node.id} + if node.kind.Stage? then ToSet(InnerIDs(node, node.kind.stage.jobs)) else {}
  {
  }

  /** A record id is the id of a node, or of a stage and one of its members, joined by a slash. */
  predicate IsRecordID(nodes: seq<Node>, x: string) {
    exists n :: n in nodes && (x == n.id || (n.kind.Stage? && exists j :: j in n.kind.stage.jobs && x == n.id + "/" + j.id))
  }

  lemma {:induction false} RecordIDsAre(nodes: seq<Node>, x: string)
    ensures x in RecordIDs(nodes) <==> IsRecordID(nodes, x)
  {
    if nodes != [] {
      var start, n := nodes[..|nodes| - 1], nodes[|nodes| - 1];
      RecordIDsAre(start, x);
      SplitLast(nodes);
      OwnIDsAre(n, x);
      assert x in RecordIDs(nodes) <==> x in RecordIDs(start) || x in OwnIDs(n);
    }
  }

  lemma OwnIDsAre(n: Node, x: string)
    ensures x in OwnIDs(n) <==> x == n.id || (n.kind.Stage? && exists j :: j in n.kind.stage.jobs && x == n.id + "/" + j.id)
  {
    if n.kind.Stage? {
      var jobs := n.kind.stage.jobs;
      forall j | j in jobs
        ensures InnerID(n, j) in InnerIDs(n, jobs)
      {
        var i :| 0 <= i < |jobs| && jobs[i] == j;
        assert InnerIDs(n, jobs)[i] == InnerID(n, j);
      }
    }
  }

  /** The seeds of one more node. */
  lemma NextSeeds(nodes: seq<Node>, i: nat)
    requires i < |nodes|
    ensures ToSet(RecordIDs(nodes[..i])) + ToSet(OwnIDs(nodes[i])) == ToSet(RecordIDs(nodes[..i + 1]))
    ensures ToSet(RecordIDs(nodes[..i + 1])) <= ToSet(RecordIDs(nodes))
  {
    TakeNext(nodes, i);
    SeedsOfPrefix(nodes, i + 1);
  }

  /** The ids of a prefix are ids of the whole list. */
  lemma {:induction false} SeedsOfPrefix(nodes: seq<Node>, k: nat)
    requires k <= |nodes|
    ensures forall id :: id in RecordIDs(nodes[..k]) ==> id in RecordIDs(nodes)
    decreases |nodes| - k
  {
    if k < |nodes| {
      assert nodes[..k + 1][..k] == nodes[..k];
      SeedsOfPrefix(nodes, k + 1);
    } else {
      assert nodes[..k] == nodes;
    }
  }

  /** The list and the table agree on being terminal and on having a failure. */
  lemma RowsTerminal(rows: seq<NodeRecord>, s: States)
    requires Lists(rows, s)
    ensures FinalState(s) == RunFailed || FinalState(s) == RunSuccess
    ensures (forall n :: n in rows ==> Terminal(n.state)) <==> AllTerminal(s)
    ensures (exists k :: 0 <= k < |rows| && rows[k].state == Failed) <==> FinalState(s) == RunFailed
  {
    forall id | id in s
      ensures exists k :: 0 <= k < |rows| && rows[k].nodeID == id && rows[k].state == s[id]
    {
      var k :| 0 <= k < |rows| && rows[k] == NodeRecord(id, s[id]);
      assert rows[k].nodeID == id;
    }
    forall k | 0 <= k < |rows|
      ensures rows[k].nodeID in s && s[rows[k].nodeID] == rows[k].state && rows[k] in rows
    {
    }
  }
}
