/**
 * Whole runs of job graphs, one Advance or one NodeCompleted at a time: every order of the
 * steps leads to the same final states, no run deadlocks, and the blocked nodes are exactly
 * those behind a failure.
 */
module AtomicRuns {
  import opened Messages
  import opened DepGraph
  import opened Store
  import opened Scheduler
  import opened Manager

  /** A dependency graph of jobs, the gate of the run's context, and the outcome of each job. */
  datatype Setting = Setting(g: map<string, Node>, pass: Gate, succeeds: string -> bool)

  datatype Act = Advance | Complete(id: string)

  /** The records of the run and the final states published so far. */
  datatype Run = Run(states: States, published: seq<RunState>)

  function Initial(c: Setting): Run {
    Run(map id | id in c.g :: Pending, [])
  }

  /** A completion is reported for a running job. */
  predicate Enabled(r: Run, a: Act) {
    a.Complete? ==> a.id in r.states && r.states[a.id] == Running
  }

  /** The simultaneous step of an Advance over a graph. */
  function AdvanceAll(c: Setting, s: States): (t: States)
    requires Keyed(c.g)
    ensures t.Keys == s.Keys
  {
    map id | id in s :: if id in c.g then Effect(s, id, Decide(c.g[id], s, c.pass))[id] else s[id]
  }

  function Apply(c: Setting, r: Run, a: Act): Run
    requires Keyed(c.g)
  {
    match a
    case Advance => r.(states := AdvanceAll(c, r.states))
    case Complete(id) =>
      var s := r.states[id := Outcome(c.succeeds(id))];
      Run(s, r.published + if AllTerminal(s) then [FinalState(s)] else [])
  }

  /** The run after the given steps. */
  function Exec(c: Setting, r: Run, acts: seq<Act>): Run
    requires Keyed(c.g)
    decreases |acts|
  {
    if acts == [] then r else Exec(c, Apply(c, r, acts[0]), acts[1..])
  }

  predicate Possible(c: Setting, r: Run, acts: seq<Act>)
    requires Keyed(c.g)
    decreases |acts|
  {
    acts == [] || (Enabled(r, acts[0]) && Possible(c, Apply(c, r, acts[0]), acts[1..]))
  }

  // ---------------------------------------------------------------------------
  // What every step keeps
  // ---------------------------------------------------------------------------

  /** A record that has left pending was entitled to, and is where its gate and outcome put it. */
  ghost predicate Entitled(c: Setting, n: Node, s: States)
    requires n.id in s
  {
    && (s[n.id] != Pending ==> DepsTerminal(n.dependsOn, s))
    && (s[n.id] == Skipped ==> !c.pass(n.conditions))
    && (s[n.id] == Running || s[n.id] == Success || s[n.id] == Failed ==> c.pass(n.conditions))
    && (s[n.id] == Success ==> c.succeeds(n.id))
    && (s[n.id] == Failed ==> !c.succeeds(n.id))
  }

  ghost predicate Sound(c: Setting, s: States) {
    Keyed(c.g) && s.Keys == c.g.Keys && forall id :: id in s ==> Entitled(c, c.g[id], s)
  }

  /** A run published its final state at most once, and only when every record was terminal. */
  ghost predicate Published(r: Run) {
    |r.published| <= 1 && (r.published != [] ==> AllTerminal(r.states) && r.published[0] == FinalState(r.states))
  }

  lemma AdvanceKeepsSound(c: Setting, s: States)
    requires Sound(c, s)
    ensures Sound(c, AdvanceAll(c, s))
    ensures forall d :: Settled(s, d) ==> Settled(AdvanceAll(c, s), d)
  {
    var t := AdvanceAll(c, s);
    forall d | Settled(s, d)
      ensures Settled(t, d)
    {
    }
    forall id | id in t
      ensures Entitled(c, c.g[id], t)
    {
      assert Entitled(c, c.g[id], s);
    }
  }

  lemma CompleteKeepsSound(c: Setting, s: States, id: string)
    requires Sound(c, s) && id in s && s[id] == Running
    ensures Sound(c, s[id := Outcome(c.succeeds(id))])
  {
    var t := s[id := Outcome(c.succeeds(id))];
    assert t.Keys == s.Keys;
    forall x | x in t
      ensures Entitled(c, c.g[x], t)
    {
      assert Entitled(c, c.g[x], s);
      assert forall d :: Settled(s, d) ==> Settled(t, d);
    }
  }

  /** When every record is terminal an Advance changes nothing. */
  lemma TerminalIsStill(c: Setting, s: States)
    requires Keyed(c.g) && AllTerminal(s)
    ensures AdvanceAll(c, s) == s
  {
  }

  lemma {:induction false} RunsStaySound(c: Setting, r: Run, acts: seq<Act>)
    requires Sound(c, r.states) && Published(r) && Possible(c, r, acts)
    ensures Sound(c, Exec(c, r, acts).states) && Published(Exec(c, r, acts))
    decreases |acts|
  {
    if acts != [] {
      match acts[0] {
        case Advance =>
          AdvanceKeepsSound(c, r.states);
          if r.published != [] {
            TerminalIsStill(c, r.states);
          }
        case Complete(id) =>
          CompleteKeepsSound(c, r.states, id);
      }
      RunsStaySound(c, Apply(c, r, acts[0]), acts[1..]);
    }
  }

  lemma RunsAreSound(c: Setting, acts: seq<Act>)
    requires Keyed(c.g) && Possible(c, Initial(c), acts)
    ensures Sound(c, Exec(c, Initial(c), acts).states) && Published(Exec(c, Initial(c), acts))
  {
    RunsStaySound(c, Initial(c), acts);
  }

  // ---------------------------------------------------------------------------
  // The recursive meaning
  // ---------------------------------------------------------------------------

  /** Blocked unless all dependencies settled, else skipped by its conditions, else its outcome. */
  ghost function Verdict(c: Setting, n: Node, s: States): NodeState {
    if !DepsTerminal(n.dependsOn, s) then Pending
    else if !c.pass(n.conditions) then Skipped
    else Outcome(c.succeeds(n.id))
  }

  /** A solution of the verdict equations. */
  ghost predicate IsMeaning(c: Setting, s: States) {
    s.Keys == c.g.Keys && forall id :: id in s ==> s[id] == Verdict(c, c.g[id], s)
  }

  /** What the run means for one node, by recursion over its dependencies. */
  ghost function Meaning(c: Setting, rank: map<string, nat>, id: string): NodeState
    requires Ranked(c.g, rank) && id in c.g
    decreases rank[id]
  {
    if exists d :: d in c.g[id].dependsOn && Edge(c.g, id, d) && Blocks(Meaning(c, rank, d)) then Pending
    else if !c.pass(c.g[id].conditions) then Skipped
    else Outcome(c.succeeds(id))
  }

  predicate Blocks(st: NodeState) {
    st != Success && st != Skipped
  }

  /** The recursive meaning is the one solution of the verdict equations. */
  lemma {:induction false} MeaningIsUnique(c: Setting, rank: map<string, nat>, s: States, id: string)
    requires Keyed(c.g) && Ranked(c.g, rank) && IsMeaning(c, s) && id in s
    ensures s[id] == Meaning(c, rank, id)
    decreases rank[id]
  {
    forall d | d in c.g[id].dependsOn
      ensures Edge(c.g, id, d) && d in s && s[d] == Meaning(c, rank, d)
    {
      assert Edge(c.g, id, d);
      MeaningIsUnique(c, rank, s, d);
    }
    assert s[id] == Verdict(c, c.g[id], s);
  }

  // ---------------------------------------------------------------------------
  // Confluence
  // ---------------------------------------------------------------------------

  /** Nothing runs and an Advance would change nothing. */
  predicate Quiescent(c: Setting, s: States)
    requires Keyed(c.g)
  {
    (forall id :: id in s ==> s[id] != Running) && AdvanceAll(c, s) == s
  }

  lemma QuiescentIsMeaning(c: Setting, s: States)
    requires Sound(c, s) && Quiescent(c, s)
    ensures IsMeaning(c, s)
  {
    forall id | id in s
      ensures s[id] == Verdict(c, c.g[id], s)
    {
      assert AdvanceAll(c, s)[id] == s[id] && Entitled(c, c.g[id], s);
    }
  }

  /** States at rest that keep the invariant are the recursive meaning. */
  lemma RestIsMeaning(c: Setting, rank: map<string, nat>, s: States)
    requires Sound(c, s) && Quiescent(c, s) && Ranked(c.g, rank)
    ensures s == map id | id in c.g :: Meaning(c, rank, id)
  {
    QuiescentIsMeaning(c, s);
    forall id | id in s
      ensures s[id] == Meaning(c, rank, id)
    {
      MeaningIsUnique(c, rank, s, id);
    }
    assert s.Keys == c.g.Keys;
  }

  /** Every order of the steps that comes to rest ends in the same states: the recursive meaning. */
  lemma Confluence(c: Setting, rank: map<string, nat>, acts: seq<Act>)
    requires Keyed(c.g) && Ranked(c.g, rank)
    requires Possible(c, Initial(c), acts) && Quiescent(c, Exec(c, Initial(c), acts).states)
    ensures Exec(c, Initial(c), acts).states == map id | id in c.g :: Meaning(c, rank, id)
  {
    RunsAreSound(c, acts);
    RestIsMeaning(c, rank, Exec(c, Initial(c), acts).states);
  }

  // ---------------------------------------------------------------------------
  // Runs come to rest
  // ---------------------------------------------------------------------------

  function Those(s: States, st: NodeState): set<string> {
    set id | id in s && s[id] == st
  }

  function Weight(s: States): nat {
    2 * |Those(s, Pending)| + |Those(s, Running)|
  }

  lemma CompleteDrops(s: States, id: string, st: NodeState)
    requires id in s && s[id] == Running && Terminal(st)
    ensures Weight(s[id := st]) == Weight(s) - 1
  {
    var t := s[id := st];
    assert Those(t, Pending) == Those(s, Pending);
    assert Those(t, Running) == Those(s, Running) - {id};
  }

  lemma AdvanceDrops(c: Setting, s: States)
    requires Keyed(c.g) && AdvanceAll(c, s) != s
    ensures Weight(AdvanceAll(c, s)) < Weight(s)
  {
    var t := AdvanceAll(c, s);
    var moved := set id | id in s && t[id] != s[id];
    var id :| id in s && t[id] != s[id];
    assert id in moved;
    assert Those(t, Pending) == Those(s, Pending) - moved;
    assert moved <= Those(s, Pending);
    assert Those(t, Running) <= Those(s, Running) + moved;
    SubsetSize(Those(t, Running), Those(s, Running) + moved);
  }

  /** Every step of the list changes the records. */
  predicate AllEffective(c: Setting, r: Run, acts: seq<Act>)
    requires Keyed(c.g)
    decreases |acts|
  {
    acts == [] || (Apply(c, r, acts[0]).states != r.states && AllEffective(c, Apply(c, r, acts[0]), acts[1..]))
  }

  lemma {:induction false} EffectiveStepsBounded(c: Setting, r: Run, acts: seq<Act>)
    requires Keyed(c.g) && Possible(c, r, acts) && AllEffective(c, r, acts)
    ensures |acts| + Weight(Exec(c, r, acts).states) <= Weight(r.states)
    decreases |acts|
  {
    if acts != [] {
      match acts[0] {
        case Advance => AdvanceDrops(c, r.states);
        case Complete(id) => CompleteDrops(r.states, id, Outcome(c.succeeds(id)));
      }
      EffectiveStepsBounded(c, Apply(c, r, acts[0]), acts[1..]);
    }
  }

  /** A run has at most two effective steps for each node. */
  lemma EffectiveSteps(c: Setting, acts: seq<Act>)
    requires Keyed(c.g) && Possible(c, Initial(c), acts) && AllEffective(c, Initial(c), acts)
    ensures |acts| <= 2 * |c.g|
  {
    EffectiveStepsBounded(c, Initial(c), acts);
    assert Those(Initial(c).states, Running) == {} && Those(Initial(c).states, Pending) == c.g.Keys;
  }

  /** Every run can be continued until it rests. */
  lemma {:induction false} RestIsReachable(c: Setting, r: Run) returns (acts: seq<Act>)
    requires Keyed(c.g)
    ensures Possible(c, r, acts) && Quiescent(c, Exec(c, r, acts).states)
    decreases Weight(r.states)
  {
    if id :| id in r.states && r.states[id] == Running {
      CompleteDrops(r.states, id, Outcome(c.succeeds(id)));
      var rest := RestIsReachable(c, Apply(c, r, Complete(id)));
      acts := [Complete(id)] + rest;
    } else if AdvanceAll(c, r.states) != r.states {
      AdvanceDrops(c, r.states);
      var rest := RestIsReachable(c, Apply(c, r, Advance));
      acts := [Advance] + rest;
    } else {
      acts := [];
    }
  }

  // ---------------------------------------------------------------------------
  // Deadlock freedom and exact blocking
  // ---------------------------------------------------------------------------

  /** While a record is pending, something runs, something failed, or an Advance has work to do. */
  lemma {:induction false} DeadlockFree(c: Setting, rank: map<string, nat>, s: States, id: string)
    requires Sound(c, s) && Ranked(c.g, rank)
    requires id in s && s[id] == Pending
    requires forall x :: x in s ==> s[x] != Running && s[x] != Failed
    ensures exists x :: x in s && s[x] == Pending && AdvanceAll(c, s)[x] != Pending
    decreases rank[id]
  {
    if Ready(c.g[id], s) {
      assert AdvanceAll(c, s)[id] != Pending;
    } else {
      var d :| d in c.g[id].dependsOn && !Settled(s, d);
      assert Edge(c.g, id, d);
      DeadlockFree(c, rank, s, d);
    }
  }

  /** `id` depends, through one or more steps, on a failed node. */
  ghost predicate BehindFailure(c: Setting, s: States, id: string) {
    exists p :: Path(c.g, p) && |p| >= 2 && p[0] == id && FailedEnd(s, p)
  }

  predicate FailedEnd(s: States, p: seq<string>) {
    p != [] && p[|p| - 1] in s && s[p[|p| - 1]] == Failed
  }

  /** At rest the pending nodes are exactly the strict transitive dependents of the failed ones. */
  lemma BlockedExactly(c: Setting, rank: map<string, nat>, s: States, id: string)
    requires Sound(c, s) && Ranked(c.g, rank) && Quiescent(c, s) && id in s
    ensures s[id] == Pending <==> BehindFailure(c, s, id)
  {
    if s[id] == Pending {
      var p := PathToFailure(c, rank, s, id);
    } else if BehindFailure(c, s, id) {
      var p :| Path(c.g, p) && |p| >= 2 && p[0] == id && FailedEnd(s, p);
      DependentsPend(c, s, p);
    }
  }

  lemma {:induction false} PathToFailure(c: Setting, rank: map<string, nat>, s: States, id: string) returns (p: seq<string>)
    requires Sound(c, s) && Quiescent(c, s) && Ranked(c.g, rank)
    requires id in s && s[id] == Pending
    ensures Path(c.g, p) && |p| >= 2 && p[0] == id && FailedEnd(s, p)
    decreases rank[id]
  {
    assert AdvanceAll(c, s)[id] == Pending;
    var d :| d in c.g[id].dependsOn && !Settled(s, d);
    assert Edge(c.g, id, d);
    if s[d] == Failed {
      p := [id, d];
    } else {
      var tail := PathToFailure(c, rank, s, d);
      PathCons(c.g, id, tail);
      p := [id] + tail;
    }
  }

  /** Whoever stands on a path to a failed node, except that node, is pending: in every reachable state. */
  lemma {:induction false} DependentsPend(c: Setting, s: States, p: seq<string>)
    requires Sound(c, s)
    requires Path(c.g, p) && |p| >= 2 && FailedEnd(s, p)
    ensures p[0] in s && s[p[0]] == Pending
    decreases |p|
  {
    assert Edge(c.g, p[0], p[1]);
    assert Entitled(c, c.g[p[0]], s);
    if |p| > 2 {
      PathTail(c.g, p);
      DependentsPend(c, s, p[1..]);
    }
  }

  // ---------------------------------------------------------------------------
  // Rounds
  // ---------------------------------------------------------------------------

  function CompleteAll(c: Setting, s: States): (t: States)
    ensures t.Keys == s.Keys
  {
    map id | id in s :: if s[id] == Running then Outcome(c.succeeds(id)) else s[id]
  }

  /** One Advance, then every running job reports. */
  function Round(c: Setting, s: States): States
    requires Keyed(c.g)
  {
    CompleteAll(c, AdvanceAll(c, s))
  }

  function Rounds(c: Setting, k: nat): States
    requires Keyed(c.g)
  {
    if k == 0 then Initial(c).states else Round(c, Rounds(c, k - 1))
  }

  /** A round is a run. */
  lemma RoundIsRun(c: Setting, r: Run) returns (acts: seq<Act>)
    requires Keyed(c.g)
    ensures Possible(c, r, acts) && Exec(c, r, acts).states == Round(c, r.states)
  {
    var rest := ReportAll(c, Apply(c, r, Advance));
    acts := [Advance] + rest;
  }

  lemma {:induction false} ReportAll(c: Setting, r: Run) returns (acts: seq<Act>)
    requires Keyed(c.g)
    ensures Possible(c, r, acts) && Exec(c, r, acts).states == CompleteAll(c, r.states)
    decreases Weight(r.states)
  {
    if id :| id in r.states && r.states[id] == Running {
      var next := Apply(c, r, Complete(id));
      CompleteDrops(r.states, id, Outcome(c.succeeds(id)));
      var rest := ReportAll(c, next);
      acts := [Complete(id)] + rest;
      assert CompleteAll(c, next.states) == CompleteAll(c, r.states);
    } else {
      acts := [];
    }
  }

  lemma RoundKeeps(c: Setting, s: States)
    requires Sound(c, s)
    ensures Sound(c, Round(c, s))
    ensures forall d :: Settled(s, d) ==> Settled(Round(c, s), d)
  {
    AdvanceKeepsSound(c, s);
    var t := AdvanceAll(c, s);
    var u := CompleteAll(c, t);
    assert forall d :: Settled(t, d) ==> Settled(u, d);
    forall id | id in u
      ensures Entitled(c, c.g[id], u)
    {
      assert Entitled(c, c.g[id], t);
    }
  }

  /** If every job succeeds, k rounds settle every node of rank below k. */
  lemma {:induction false} RoundsSettle(c: Setting, rank: map<string, nat>, k: nat)
    requires Keyed(c.g) && Ranked(c.g, rank)
    requires forall id :: c.succeeds(id)
    ensures Sound(c, Rounds(c, k))
    ensures forall id :: id in c.g && rank[id] < k ==> Settled(Rounds(c, k), id)
  {
    if k > 0 {
      var s := Rounds(c, k - 1);
      RoundsSettle(c, rank, k - 1);
      RoundKeeps(c, s);
      forall id | id in c.g && rank[id] < k
        ensures Settled(Round(c, s), id)
      {
        RoundSettlesNext(c, rank, k - 1, s, id);
      }
    }
  }

  lemma RoundSettlesNext(c: Setting, rank: map<string, nat>, k: nat, s: States, id: string)
    requires Ranked(c.g, rank) && Sound(c, s) && id in c.g && rank[id] <= k
    requires forall x :: c.succeeds(x)
    requires forall x :: x in c.g && rank[x] < k ==> Settled(s, x)
    ensures Settled(Round(c, s), id)
  {
    forall d | d in c.g[id].dependsOn
      ensures Settled(s, d)
    {
      assert Edge(c.g, id, d);
    }
    assert Entitled(c, c.g[id], s);
  }

  /** If every job succeeds, the whole graph has settled after as many rounds as it has nodes. */
  lemma AllSettle(c: Setting, rank: map<string, nat>, id: string)
    requires Keyed(c.g) && Ranked(c.g, rank) && (forall x :: x in rank ==> rank[x] < |c.g|)
    requires (forall x :: c.succeeds(x)) && id in c.g
    ensures Settled(Rounds(c, |c.g|), id)
  {
    RoundsSettle(c, rank, |c.g|);
  }

  // ---------------------------------------------------------------------------
  // Finalised runs
  // ---------------------------------------------------------------------------

  /**
   * RunCompleted is published at most once; from then on no step is possible but an Advance that
   * changes nothing; the final state says whether some node failed, and nothing depends on one that did.
   */
  lemma FinalisedRun(c: Setting, acts: seq<Act>)
    requires Keyed(c.g) && Possible(c, Initial(c), acts)
    ensures var r := Exec(c, Initial(c), acts);
            && |r.published| <= 1
            && (r.published != [] ==>
                  && (forall a :: Enabled(r, a) ==> a == Advance && Apply(c, r, a) == r)
                  && (r.published[0] == RunFailed <==> exists id :: id in r.states && r.states[id] == Failed)
                  && (forall id, d :: Edge(c.g, id, d) ==> d in r.states && r.states[d] != Failed))
  {
    RunsAreSound(c, acts);
    var r := Exec(c, Initial(c), acts);
    if r.published != [] {
      TerminalIsStill(c, r.states);
      forall id, d | Edge(c.g, id, d)
        ensures Settled(r.states, d)
      {
        assert Entitled(c, c.g[id], r.states);
      }
    }
  }

  /** A completion publishes exactly if it leaves every record done, and then whether some job failed. */
  lemma CompletionPublishes(c: Setting, r: Run, id: string)
    requires Keyed(c.g) && Enabled(r, Complete(id))
    ensures var t := Apply(c, r, Complete(id));
            && t.states == r.states[id := if c.succeeds(id) then Success else Failed]
            && t.published == if !AllDone(t.states) then r.published
                              else r.published + [if exists x :: x in t.states && t.states[x] == Failed then RunFailed else RunSuccess]
  {
    AllDoneIsTerminal(Apply(c, r, Complete(id)).states);
  }

  lemma {:induction false} ExecSnoc(c: Setting, r: Run, acts: seq<Act>, a: Act)
    requires Keyed(c.g) && Possible(c, r, acts + [a])
    ensures Possible(c, r, acts) && Enabled(Exec(c, r, acts), a)
    ensures Exec(c, r, acts + [a]) == Apply(c, Exec(c, r, acts), a)
    decreases |acts|
  {
    if acts == [] {
      AppendEmpty([a]);
      assert [a][1..] == [];
    } else {
      assert (acts + [a])[1..] == acts[1..] + [a];
      ExecSnoc(c, Apply(c, r, acts[0]), acts[1..], a);
    }
  }

  /** Some completion of the run left every record terminal. */
  predicate ClosedByCompletion(c: Setting, acts: seq<Act>)
    requires Keyed(c.g)
  {
    exists k :: 0 < k <= |acts| && acts[k - 1].Complete? && AllTerminal(Exec(c, Initial(c), acts[..k]).states)
  }

  /** A run is completed exactly if the last of its records to become terminal did so by a report. */
  lemma {:induction false} CompletedIff(c: Setting, acts: seq<Act>)
    requires Keyed(c.g) && Possible(c, Initial(c), acts)
    ensures Exec(c, Initial(c), acts).published != [] <==> ClosedByCompletion(c, acts)
  {
    if acts != [] {
      var start, a := acts[..|acts| - 1], acts[|acts| - 1];
      SplitLast(acts);
      ExecSnoc(c, Initial(c), start, a);
      CompletedIff(c, start);
      TakeAll(acts);
      forall k | 0 < k <= |start|
        ensures acts[..k] == start[..k] && acts[k - 1] == start[k - 1]
      {
      }
      if ClosedByCompletion(c, acts) {
        var k :| 0 < k <= |acts| && acts[k - 1].Complete? && AllTerminal(Exec(c, Initial(c), acts[..k]).states);
        assert k <= |start| ==> ClosedByCompletion(c, start);
      }
      if ClosedByCompletion(c, start) {
        var k :| 0 < k <= |start| && start[k - 1].Complete? && AllTerminal(Exec(c, Initial(c), start[..k]).states);
        assert acts[k - 1].Complete? && AllTerminal(Exec(c, Initial(c), acts[..k]).states);
      }
      if a.Complete? && AllTerminal(Exec(c, Initial(c), acts).states) {
        assert acts[..|acts|] == acts && acts[|acts| - 1].Complete?;
        assert ClosedByCompletion(c, acts);
      }
    }
  }
}
