/** The run and node tables of the database. */
module Store {
  datatype NodeState = Pending | Running | Success | Failed | Skipped

  datatype RunState = RunPending | RunRunning | RunSuccess | RunFailed | RunCancelled

  /** The node records of one run, by node id. */
  type States = Table<string>

  type Table<ID> = map<ID, NodeState>

  datatype NodeRecord = NodeRecord(nodeID: string, state: NodeState)

  /** What became of a write: done, refused, or done although the caller saw an error. */
  datatype Write = Applied | Lost | AppliedWithError

  function Written<ID>(s: Table<ID>, id: ID, state: NodeState, w: Write): Table<ID> {
    if w == Lost then s else s[id := state]
  }

  /** `rows` lists the records of `s`, once each, in any order. */
  ghost predicate Lists(rows: seq<NodeRecord>, s: States) {
    && (forall i, j :: 0 <= i < j < |rows| ==> rows[i].nodeID != rows[j].nodeID)
    && (forall i :: 0 <= i < |rows| ==> rows[i].nodeID in s && s[rows[i].nodeID] == rows[i].state)
    && (forall id :: id in s ==> NodeRecord(id, s[id]) in rows)
  }

  class Tables {
    var runs: map<string, RunState>
    var nodes: map<string, States>

    /** The records of a run; a run nobody seeded has none. */
    function Records(runID: string): States
      reads this
    {
      if runID in nodes then nodes[runID] else map[]
    }

    method CreateRun(runID: string, w: Write) returns (ok: bool)
      modifies this`runs
      ensures ok <==> w == Applied && runID !in old(runs)
      ensures runs == if w != Lost && runID !in old(runs) then old(runs)[runID := RunPending] else old(runs)
    {
      if w != Lost && runID !in runs {
        ok := w == Applied;
        runs := runs[runID := RunPending];
      } else {
        ok := false;
      }
    }

    /** Updates the row of a run; a missing row is left missing. */
    method UpdateRunState(runID: string, state: RunState, w: Write) returns (ok: bool)
      modifies this`runs
      ensures ok <==> w == Applied
      ensures runs == if w != Lost && runID in old(runs) then old(runs)[runID := state] else old(runs)
    {
      if w != Lost && runID in runs {
        runs := runs[runID := state];
      }
      ok := w == Applied;
    }

    method UpsertNode(runID: string, nodeID: string, state: NodeState, w: Write) returns (ok: bool)
      modifies this`nodes
      ensures ok <==> w == Applied
      ensures Records(runID) == Written(old(Records(runID)), nodeID, state, w)
      ensures Records(runID) == if w == Lost then old(Records(runID)) else old(Records(runID))[nodeID := state]
      ensures forall r :: r != runID ==> Records(r) == old(Records(r))
    {
      if w != Lost {
        nodes := nodes[runID := Records(runID)[nodeID := state]];
      }
      ok := w == Applied;
    }

    method ListNodes(runID: string) returns (rows: seq<NodeRecord>)
      ensures Lists(rows, Records(runID))
    {
      var s := Records(runID);
      var left := s.Keys;
      rows := [];
      while left != {}
        invariant left <= s.Keys
        invariant Lists(rows, s - left)
        decreases left
      {
        var id :| id in left;
        ghost var before, was := rows, left;
        rows := rows + [NodeRecord(id, s[id])];
        left := left - {id};
        forall x | x in s - left
          ensures NodeRecord(x, s[x]) in rows
        {
          if x != id {
            assert x in s - was && NodeRecord(x, (s - was)[x]) in before;
          }
        }
      }
      assert s - left == s;
    }
  }
}
