/**
 * Runs at the grain of single database operations: one Advance in flight, any number of
 * overlapping NodeCompleted calls, any write failing, over any specification (stages, cycles
 * and undefined dependencies included).
 */
module Interleaving {
  import opened Messages
  import opened Store
  import opened Scheduler
  import opened Manager

  /**
   * A specification: the dependencies of each node, the nodes whose conditions pass, the ids each
   * node dispatches when launched, in order, and, the other way round, the node that dispatches an id.
   */
  datatype Plan<ID(==)> = Plan(deps: map<ID, seq<ID>>, passing: set<ID>, targets: map<ID, seq<ID>>, owner: map<ID, ID>)

  /** The ids with a record: the nodes, and the members of stages. */
  function Records<ID>(p: Plan<ID>): set<ID> {
    p.deps.Keys + p.owner.Keys
  }

  /** No two records share an id: every target has one owner, and only a job is its own target. */
  ghost predicate Flat<ID>(p: Plan<ID>) {
    && p.targets.Keys == p.deps.Keys
    && (forall n :: n in p.targets ==> OnceEach(p.targets[n]))
    && (forall n, x :: n in p.targets && x in p.targets[n] ==> x in p.owner && p.owner[x] == n)
    && (forall x :: x in p.owner ==> p.owner[x] in p.deps && x in p.targets[p.owner[x]])
    && (forall x {:trigger p.targets[x], x in p.owner} :: x in p.owner && x in p.deps ==> p.targets[x] == [x])
  }

  function TargetsOf<ID>(p: Plan<ID>, n: ID): seq<ID> {
    if n in p.targets then p.targets[n] else []
  }

  predicate OnceEach<ID(==)>(ids: seq<ID>) {
    ids == [] || (ids[0] !in ids[1..] && OnceEach(ids[1..]))
  }

  // ---------------------------------------------------------------------------
  // The system
  // ---------------------------------------------------------------------------

  /** Where the one Advance stands: in its loop, or dispatching what it has just marked running. */
  datatype Phase<ID> =
    | Idle
    | Looping(snap: Table<ID>, rest: set<ID>)
    | Firing(snap: Table<ID>, rest: set<ID>, owner: ID, todo: seq<ID>)

  /** Where a NodeCompleted stands after its write; `fault` tells whether an operation failed. */
  datatype Report<ID> = Wrote | Read(seen: Table<ID>) | Ended(fault: bool)

  datatype Sys<ID> = Sys(
    states: Table<ID>,
    phase: Phase<ID>,
    dispatched: map<ID, nat>,  // how often each id was dispatched
    reports: map<ID, Report<ID>>,  // the NodeCompleted calls, by reported id
    run: RunState,
    published: seq<RunState>,  // one entry for each RunCompleted
    closer: Option<ID>)  // the report whose write left every record terminal

  /** Every record pending, nothing in flight. */
  ghost predicate Fresh<ID>(p: Plan<ID>, s: Sys<ID>) {
    && s.states.Keys == Records(p)
    && (forall x :: x in s.states ==> s.states[x] == Pending)
    && s.phase == Idle && s.dispatched == map[] && s.reports == map[]
    && s.run == RunRunning && s.published == [] && s.closer == None
  }

  /** One operation. The loop may take the remaining nodes in any order, the order of the list included. */
  datatype Op<ID> =
    | List
    | Visit(id: ID, w: Write)
    | Send
    | Finish
    | WriteReport(id: ID, success: bool, w: Write)
    | ReadReport(id: ID, ok: bool)
    | EndReport(id: ID, w: Write)

  /** A report is made at most once, for an id that was dispatched. */
  predicate Enabled<ID>(p: Plan<ID>, s: Sys<ID>, op: Op<ID>) {
    match op
    case List => s.phase == Idle
    case Visit(id, _) => s.phase.Looping? && id in s.phase.rest && id in p.deps
    case Send => s.phase.Firing? && s.phase.todo != []
    case Finish => s.phase.Looping? && s.phase.rest == {}
    case WriteReport(id, _, _) => id in s.dispatched && id !in s.reports
    case ReadReport(id, _) => id in s.reports && s.reports[id] == Wrote
    case EndReport(id, _) => id in s.reports && s.reports[id].Read?
  }

  function Resume<ID>(snap: Table<ID>, rest: set<ID>, owner: ID, todo: seq<ID>): Phase<ID> {
    if todo == [] then Looping(snap, rest) else Firing(snap, rest, owner, todo)
  }

  function Count<ID>(calls: map<ID, nat>, x: ID): map<ID, nat> {
    calls[x := (if x in calls then calls[x] else 0) + 1]
  }

  function VisitNode<ID>(p: Plan<ID>, s: Sys<ID>, id: ID, w: Write): Sys<ID>
    requires s.phase.Looping? && id in p.deps
  {
    var snap, rest := s.phase.snap, s.phase.rest - {id};
    match DecideOn(id, p.deps[id], id in p.passing, snap)
    case Leave => s.(phase := Looping(snap, rest))
    case Skip => s.(phase := Looping(snap, rest), states := Written(s.states, id, Skipped, w))
    case Launch =>
      s.(states := Written(s.states, id, Running, w),
         phase := if w == Applied then Resume(snap, rest, id, TargetsOf(p, id)) else Looping(snap, rest))
  }

  function WriteNode<ID>(s: Sys<ID>, id: ID, success: bool, w: Write): Sys<ID> {
    var t := Written(s.states, id, Outcome(success), w);
    s.(states := t,
       reports := s.reports[id := if w == Applied then Wrote else Ended(true)],
       closer := if w == Applied && AllTerminal(t) then Some(id) else s.closer)
  }

  function EndNode<ID>(s: Sys<ID>, id: ID, w: Write): Sys<ID>
    requires id in s.reports && s.reports[id].Read?
  {
    var seen := s.reports[id].seen;
    if !AllTerminal(seen) then s.(reports := s.reports[id := Ended(false)])
    else
      s.(reports := s.reports[id := Ended(w != Applied)],
         run := if w == Lost then s.run else FinalState(seen),
         published := s.published + if w == Applied then [FinalState(seen)] else [])
  }

  function Do<ID>(p: Plan<ID>, s: Sys<ID>, op: Op<ID>): Sys<ID>
    requires Enabled(p, s, op)
  {
    match op
    case List => s.(phase := Looping(s.states, p.deps.Keys))
    case Visit(id, w) => VisitNode(p, s, id, w)
    case Send =>
      s.(dispatched := Count(s.dispatched, s.phase.todo[0]),
         phase := Resume(s.phase.snap, s.phase.rest, s.phase.owner, s.phase.todo[1..]))
    case Finish => s.(phase := Idle)
    case WriteReport(id, success, w) => WriteNode(s, id, success, w)
    case ReadReport(id, ok) => s.(reports := s.reports[id := if ok then Read(s.states) else Ended(true)])
    case EndReport(id, w) => EndNode(s, id, w)
  }

  // ---------------------------------------------------------------------------
  // The invariant
  // ---------------------------------------------------------------------------

  /** Every record that was terminal is in the same state later on. */
  ghost predicate Later<ID>(s: Table<ID>, t: Table<ID>) {
    s.Keys == t.Keys && forall x :: x in s && Terminal(s[x]) ==> t[x] == s[x]
  }

  /** No node leaves pending before its dependencies settle. */
  ghost predicate DepsHold<ID>(p: Plan<ID>, states: Table<ID>) {
    forall n :: n in p.deps && n in states && states[n] != Pending ==> DepsTerminal(p.deps[n], states)
  }

  /** At most one dispatch for each id, and none before its node is marked running. */
  ghost predicate DispatchesHold<ID>(p: Plan<ID>, states: Table<ID>, dispatched: map<ID, nat>) {
    && (forall x :: x in dispatched ==> dispatched[x] == 1 && x in p.owner)
    && (forall x :: x in dispatched && x in p.owner ==>
          p.owner[x] in states && states[p.owner[x]] != Pending && states[p.owner[x]] != Skipped)
  }

  /** Only what was dispatched is reported, and only reports bring success, failure or a stage member's end. */
  ghost predicate ReportsHold<ID>(p: Plan<ID>, states: Table<ID>, dispatched: map<ID, nat>, reported: set<ID>) {
    && reported <= dispatched.Keys
    && (forall x {:trigger x in reported} :: x in states && (states[x] == Success || states[x] == Failed) ==> x in reported)
    && (forall x :: x in states && x !in p.deps && (states[x] == Running || states[x] == Skipped) ==> false)
  }

  /** The snapshot is behind the table only where it does not matter. */
  ghost predicate PhaseHolds<ID>(p: Plan<ID>, phase: Phase<ID>, states: Table<ID>, dispatched: map<ID, nat>) {
    phase == Idle ||
    (&& Later(phase.snap, states)
     && phase.rest <= p.deps.Keys
     && (forall n :: n in phase.rest && Is(phase.snap, n, Pending) ==> Is(states, n, Pending))
     && (phase.Firing? ==> FiringHolds(p, phase.owner, phase.todo, states, dispatched)))
  }

  ghost predicate FiringHolds<ID>(p: Plan<ID>, owner: ID, todo: seq<ID>, states: Table<ID>, dispatched: map<ID, nat>) {
    && todo != [] && OnceEach(todo) && owner in p.deps && Is(states, owner, Running)
    && forall x :: x in todo ==> x !in dispatched && x in p.owner && p.owner[x] == owner
  }

  /** Everything published is the one final state, and the closing report is on its way to publish it. */
  ghost predicate FinalHolds<ID>(states: Table<ID>, reports: map<ID, Report<ID>>, run: RunState, published: seq<RunState>, closer: Option<ID>) {
    && (forall x :: x in reports && reports[x].Read? ==> Later(reports[x].seen, states))
    && (forall r :: r in published ==> AllTerminal(states) && r == FinalState(states))
    && ((run == RunRunning && published == []) || (AllTerminal(states) && run == FinalState(states)))
    && (closer.Some? ==> AllTerminal(states) && ClosingHolds(states, reports, run, published, closer.value))
  }

  predicate ClosingHolds<ID>(states: Table<ID>, reports: map<ID, Report<ID>>, run: RunState, published: seq<RunState>, c: ID) {
    c in reports &&
    match reports[c]
    case Wrote => true
    case Read(seen) => seen == states
    case Ended(fault) => !fault ==> published != [] && run == FinalState(states)
  }

  /** The part of the invariant that speaks of the table, the Advance and the dispatches. */
  ghost predicate StoreHolds<ID>(p: Plan<ID>, states: Table<ID>, phase: Phase<ID>, dispatched: map<ID, nat>, reported: set<ID>) {
    && states.Keys == Records(p)
    && DepsHold(p, states)
    && DispatchesHold(p, states, dispatched)
    && ReportsHold(p, states, dispatched, reported)
    && PhaseHolds(p, phase, states, dispatched)
  }

  ghost predicate Inv<ID>(p: Plan<ID>, s: Sys<ID>) {
    && StoreHolds(p, s.states, s.phase, s.dispatched, s.reports.Keys)
    && FinalHolds(s.states, s.reports, s.run, s.published, s.closer)
  }

  // ---------------------------------------------------------------------------
  // Every operation keeps the invariant and every terminal record
  // ---------------------------------------------------------------------------

  lemma LaterSettles<ID>(s: Table<ID>, t: Table<ID>)
    requires Later(s, t)
    ensures forall x :: Settled(s, x) ==> Settled(t, x)
  {
  }

  /** A write to a record that is not terminal keeps all that is. */
  lemma WriteIsLater<ID>(s: Table<ID>, x: ID, st: NodeState, w: Write)
    requires x in s && !Terminal(s[x])
    ensures Later(s, Written(s, x, st, w))
    ensures forall u :: Later(u, s) ==> Later(u, Written(s, x, st, w))
  {
    var t := Written(s, x, st, w);
    assert t.Keys == s.Keys;
  }

  lemma FreshHolds<ID>(p: Plan<ID>, s: Sys<ID>)
    requires Flat(p) && Fresh(p, s)
    ensures Inv(p, s)
  {
  }

  /** A write to an open record keeps what the final phase relies on. */
  lemma WriteKeepsFinal<ID>(s: Sys<ID>, x: ID, st: NodeState, w: Write)
    requires FinalHolds(s.states, s.reports, s.run, s.published, s.closer)
    requires x in s.states && !Terminal(s.states[x])
    ensures FinalHolds(Written(s.states, x, st, w), s.reports, s.run, s.published, s.closer)
  {
    WriteIsLater(s.states, x, st, w);
    assert !AllTerminal(s.states);
  }

  lemma WriteKeepsDeps<ID>(p: Plan<ID>, states: Table<ID>, x: ID, st: NodeState, w: Write)
    requires DepsHold(p, states) && x in states && !Terminal(states[x])
    requires x in p.deps ==> DepsTerminal(p.deps[x], states)
    ensures DepsHold(p, Written(states, x, st, w))
  {
    WriteIsLater(states, x, st, w);
    LaterSettles(states, Written(states, x, st, w));
  }

  /** A node the loop acts on is still pending in the table, its dependencies settled there. */
  lemma ActedOnIsPending<ID>(p: Plan<ID>, s: Sys<ID>, id: ID)
    requires Flat(p) && Inv(p, s) && s.phase.Looping? && id in s.phase.rest
    requires DecideOn(id, p.deps[id], id in p.passing, s.phase.snap) != Leave
    ensures Is(s.states, id, Pending) && DepsTerminal(p.deps[id], s.states)
    ensures forall x :: x in p.targets[id] ==> x !in s.dispatched
  {
    assert Is(s.phase.snap, id, Pending);
    LaterSettles(s.phase.snap, s.states);
    assert id in p.targets;
  }

  lemma MarkKeepsRest<ID>(p: Plan<ID>, states: Table<ID>, dispatched: map<ID, nat>, reported: set<ID>, snap: Table<ID>, rest: set<ID>, id: ID, st: NodeState, w: Write)
    requires id in p.deps && Is(states, id, Pending) && (st == Skipped || st == Running)
    requires DispatchesHold(p, states, dispatched) && ReportsHold(p, states, dispatched, reported)
    requires PhaseHolds(p, Looping(snap, rest), states, dispatched) && id in rest
    ensures var t := Written(states, id, st, w);
            && DispatchesHold(p, t, dispatched) && ReportsHold(p, t, dispatched, reported)
            && PhaseHolds(p, Looping(snap, rest - {id}), t, dispatched)
  {
    WriteIsLater(states, id, st, w);
  }

  /** Marking a pending node. */
  lemma MarkKeeps<ID>(p: Plan<ID>, s: Sys<ID>, id: ID, st: NodeState, w: Write)
    requires Inv(p, s) && s.phase.Looping? && id in s.phase.rest && (st == Skipped || st == Running)
    requires Is(s.states, id, Pending) && DepsTerminal(p.deps[id], s.states)
    ensures var t := Written(s.states, id, st, w);
            Later(s.states, t) && Inv(p, s.(states := t, phase := Looping(s.phase.snap, s.phase.rest - {id})))
  {
    WriteIsLater(s.states, id, st, w);
    WriteKeepsFinal(s, id, st, w);
    WriteKeepsDeps(p, s.states, id, st, w);
    MarkKeepsRest(p, s.states, s.dispatched, s.reports.Keys, s.phase.snap, s.phase.rest, id, st, w);
  }

  /** The targets of a node just marked running can be dispatched. */
  lemma LaunchFires<ID>(p: Plan<ID>, id: ID, states: Table<ID>, dispatched: map<ID, nat>)
    requires Flat(p) && id in p.deps && Is(states, id, Running) && p.targets[id] != []
    requires forall x :: x in p.targets[id] ==> x !in dispatched
    ensures FiringHolds(p, id, p.targets[id], states, dispatched)
  {
    assert id in p.targets;
  }

  lemma VisitKeeps<ID>(p: Plan<ID>, s: Sys<ID>, id: ID, w: Write)
    requires Flat(p) && Inv(p, s) && Enabled(p, s, Visit(id, w))
    ensures Inv(p, Do(p, s, Visit(id, w))) && Later(s.states, Do(p, s, Visit(id, w)).states)
  {
    var d := DecideOn(id, p.deps[id], id in p.passing, s.phase.snap);
    if d != Leave {
      var st := if d == Skip then Skipped else Running;
      ActedOnIsPending(p, s, id);
      MarkKeeps(p, s, id, st, w);
      if d == Launch && w == Applied && p.targets[id] != [] {
        LaunchFires(p, id, Written(s.states, id, st, w), s.dispatched);
      }
    }
  }

  lemma SendCounts<ID>(p: Plan<ID>, states: Table<ID>, dispatched: map<ID, nat>, reported: set<ID>, owner: ID, todo: seq<ID>)
    requires FiringHolds(p, owner, todo, states, dispatched)
    requires DispatchesHold(p, states, dispatched) && ReportsHold(p, states, dispatched, reported)
    ensures var d := Count(dispatched, todo[0]);
            && DispatchesHold(p, states, d) && ReportsHold(p, states, d, reported)
            && (todo[1..] != [] ==> FiringHolds(p, owner, todo[1..], states, d))
  {
    assert todo[0] in todo;
    assert forall y :: y in todo[1..] ==> y in todo && y != todo[0];
  }

  lemma SendKeeps<ID>(p: Plan<ID>, s: Sys<ID>)
    requires Inv(p, s) && Enabled(p, s, Send)
    ensures Inv(p, Do(p, s, Send)) && Later(s.states, Do(p, s, Send).states)
  {
    SendCounts(p, s.states, s.dispatched, s.reports.Keys, s.phase.owner, s.phase.todo);
  }

  /** A record that may be reported is not terminal yet, and is not the node being launched. */
  lemma ReportableIsOpen<ID>(p: Plan<ID>, s: Sys<ID>, id: ID)
    requires Flat(p) && Inv(p, s) && id in s.dispatched && id !in s.reports
    ensures id in s.states && s.states[id] == (if id in p.deps then Running else Pending)
    ensures s.phase.Firing? ==> s.phase.owner != id
  {
    assert id in Records(p);
    assert id in p.deps ==> p.owner[id] == id by {
      assert id in p.deps ==> TargetsOf(p, id) == p.targets[id];
    }
    if s.phase.Firing? && s.phase.owner == id {
      NotReportedWhileFiring(p, s.states, s.dispatched, id, s.phase.todo);
    }
  }

  lemma NotReportedWhileFiring<ID>(p: Plan<ID>, states: Table<ID>, dispatched: map<ID, nat>, id: ID, todo: seq<ID>)
    requires Flat(p) && FiringHolds(p, id, todo, states, dispatched) && id in p.owner
    ensures id !in dispatched
  {
    var x := todo[0];
    assert p.owner[x] == id && x in p.targets[id];
    assert p.targets[id] == [id];
  }

  lemma ReportKeepsRest<ID>(p: Plan<ID>, states: Table<ID>, dispatched: map<ID, nat>, reported: set<ID>, phase: Phase<ID>, id: ID, st: NodeState, w: Write)
    requires id in dispatched && id in states && !Terminal(states[id]) && (st == Success || st == Failed)
    requires id in p.deps ==> states[id] == Running
    requires phase.Firing? ==> phase.owner != id
    requires DispatchesHold(p, states, dispatched) && ReportsHold(p, states, dispatched, reported)
    requires PhaseHolds(p, phase, states, dispatched)
    ensures var t := Written(states, id, st, w);
            && DispatchesHold(p, t, dispatched) && ReportsHold(p, t, dispatched, reported + {id})
            && PhaseHolds(p, phase, t, dispatched)
  {
    WriteIsLater(states, id, st, w);
  }

  /** The new report is the closing one if its write left every record terminal. */
  lemma WriteReportFinal<ID>(s: Sys<ID>, id: ID, success: bool, w: Write)
    requires FinalHolds(s.states, s.reports, s.run, s.published, s.closer)
    requires id in s.states && !Terminal(s.states[id])
    ensures var t := WriteNode(s, id, success, w);
            FinalHolds(t.states, t.reports, t.run, t.published, t.closer)
  {
    WriteIsLater(s.states, id, Outcome(success), w);
    assert !AllTerminal(s.states);
  }

  lemma WriteReportStore<ID>(p: Plan<ID>, s: Sys<ID>, id: ID, success: bool, w: Write)
    requires Flat(p) && Inv(p, s) && id in s.dispatched && id !in s.reports
    ensures var t := Written(s.states, id, Outcome(success), w);
            Later(s.states, t) && StoreHolds(p, t, s.phase, s.dispatched, s.reports.Keys + {id})
  {
    ReportableIsOpen(p, s, id);
    WriteIsLater(s.states, id, Outcome(success), w);
    assert id in p.deps ==> DepsTerminal(p.deps[id], s.states);
    WriteKeepsDeps(p, s.states, id, Outcome(success), w);
    ReportKeepsRest(p, s.states, s.dispatched, s.reports.Keys, s.phase, id, Outcome(success), w);
  }

  lemma WriteReportKeeps<ID>(p: Plan<ID>, s: Sys<ID>, id: ID, success: bool, w: Write)
    requires Flat(p) && Inv(p, s) && id in s.dispatched && id !in s.reports
    ensures Inv(p, WriteNode(s, id, success, w)) && Later(s.states, WriteNode(s, id, success, w).states)
  {
    ReportableIsOpen(p, s, id);
    WriteReportStore(p, s, id, success, w);
    WriteReportFinal(s, id, success, w);
    WriteReportFrame(s, id, success, w);
  }

  lemma WriteReportFrame<ID>(s: Sys<ID>, id: ID, success: bool, w: Write)
    ensures var t := WriteNode(s, id, success, w);
            && t.states == Written(s.states, id, Outcome(success), w) && t.phase == s.phase && t.dispatched == s.dispatched
            && t.reports.Keys == s.reports.Keys + {id}
  {
  }

  lemma ReadReportFinal<ID>(s: Sys<ID>, id: ID, r: Report<ID>)
    requires FinalHolds(s.states, s.reports, s.run, s.published, s.closer)
    requires r == Read(s.states) || r == Ended(true)
    ensures FinalHolds(s.states, s.reports[id := r], s.run, s.published, s.closer)
  {
    var t := s.reports[id := r];
    assert forall x :: x in t && t[x].Read? ==> Later(t[x].seen, s.states);
    assert s.closer.Some? ==> ClosingHolds(s.states, t, s.run, s.published, s.closer.value);
  }

  lemma ReadReportKeeps<ID>(p: Plan<ID>, s: Sys<ID>, id: ID, r: Report<ID>)
    requires Inv(p, s) && id in s.reports && (r == Read(s.states) || r == Ended(true))
    ensures Inv(p, s.(reports := s.reports[id := r]))
  {
    ReadReportFinal(s, id, r);
    assert s.reports[id := r].Keys == s.reports.Keys;
  }

  /** A terminal list is the table, now and for good. */
  lemma TerminalIsFinal<ID>(s: Table<ID>, t: Table<ID>)
    requires AllTerminal(s) && Later(s, t)
    ensures s == t
  {
  }

  lemma EndReportFinal<ID>(s: Sys<ID>, id: ID, w: Write)
    requires FinalHolds(s.states, s.reports, s.run, s.published, s.closer)
    requires id in s.reports && s.reports[id].Read?
    ensures var t := EndNode(s, id, w);
            FinalHolds(t.states, t.reports, t.run, t.published, t.closer)
  {
    var seen, t := s.reports[id].seen, EndNode(s, id, w);
    if AllTerminal(seen) {
      TerminalIsFinal(seen, s.states);
    }
    assert s.closer.Some? ==> ClosingHolds(t.states, t.reports, t.run, t.published, s.closer.value);
  }

  lemma EndReportKeeps<ID>(p: Plan<ID>, s: Sys<ID>, id: ID, w: Write)
    requires Inv(p, s) && id in s.reports && s.reports[id].Read?
    ensures Inv(p, EndNode(s, id, w)) && EndNode(s, id, w).states == s.states
  {
    EndReportFinal(s, id, w);
    EndReportFrame(s, id, w);
  }

  lemma EndReportFrame<ID>(s: Sys<ID>, id: ID, w: Write)
    requires id in s.reports && s.reports[id].Read?
    ensures var t := EndNode(s, id, w);
            && t.states == s.states && t.phase == s.phase && t.dispatched == s.dispatched
            && t.reports.Keys == s.reports.Keys
  {
  }

  lemma StepKeeps<ID>(p: Plan<ID>, s: Sys<ID>, op: Op<ID>)
    requires Flat(p) && Inv(p, s) && Enabled(p, s, op)
    ensures Inv(p, Do(p, s, op)) && Later(s.states, Do(p, s, op).states)
  {
    match op
    case List =>
    case Visit(id, w) => VisitKeeps(p, s, id, w);
    case Send => SendKeeps(p, s);
    case Finish =>
    case WriteReport(id, success, w) => WriteReportKeeps(p, s, id, success, w);
    case ReadReport(id, ok) => ReadReportKeeps(p, s, id, if ok then Read(s.states) else Ended(true));
    case EndReport(id, w) => EndReportKeeps(p, s, id, w);
  }

  // ---------------------------------------------------------------------------
  // Runs
  // ---------------------------------------------------------------------------

  predicate Possible<ID>(p: Plan<ID>, s: Sys<ID>, ops: seq<Op<ID>>)
    decreases |ops|
  {
    ops == [] || (Enabled(p, s, ops[0]) && Possible(p, Do(p, s, ops[0]), ops[1..]))
  }

  function Exec<ID>(p: Plan<ID>, s: Sys<ID>, ops: seq<Op<ID>>): Sys<ID>
    requires Possible(p, s, ops)
    decreases |ops|
  {
    if ops == [] then s else Exec(p, Do(p, s, ops[0]), ops[1..])
  }

  /** Over any interleaving the invariant holds and a terminal record never changes again. */
  lemma {:induction false} RunKeeps<ID>(p: Plan<ID>, s: Sys<ID>, ops: seq<Op<ID>>)
    requires Flat(p) && Inv(p, s) && Possible(p, s, ops)
    ensures Inv(p, Exec(p, s, ops)) && Later(s.states, Exec(p, s, ops).states)
    decreases |ops|
  {
    if ops != [] {
      StepKeeps(p, s, ops[0]);
      RunKeeps(p, Do(p, s, ops[0]), ops[1..]);
    }
  }

  /**
   * Snapshot stability: although an Advance decides on a list read before its writes, in every
   * reachable state the non-pending nodes have all their dependencies success or skipped, and
   * no id was dispatched twice, whatever writes failed.
   */
  lemma SnapshotStability<ID>(p: Plan<ID>, s: Sys<ID>, ops: seq<Op<ID>>)
    requires Flat(p) && Fresh(p, s) && Possible(p, s, ops)
    ensures var t := Exec(p, s, ops);
            && (forall n :: n in p.deps && n in t.states && t.states[n] != Pending ==> DepsTerminal(p.deps[n], t.states))
            && (forall x :: x in t.dispatched ==> t.dispatched[x] == 1)
  {
    FreshHolds(p, s);
    RunKeeps(p, s, ops);
  }

  /** Terminal states are never left: in any continuation of any run. */
  lemma TerminalStatesStay<ID>(p: Plan<ID>, s: Sys<ID>, ops: seq<Op<ID>>, more: seq<Op<ID>>, x: ID)
    requires Flat(p) && Fresh(p, s) && Possible(p, s, ops) && Possible(p, Exec(p, s, ops), more)
    requires x in Exec(p, s, ops).states && Terminal(Exec(p, s, ops).states[x])
    ensures var t := Exec(p, Exec(p, s, ops), more);
            x in t.states && t.states[x] == Exec(p, s, ops).states[x]
  {
    FreshHolds(p, s);
    RunKeeps(p, s, ops);
    RunKeeps(p, Exec(p, s, ops), more);
  }

  // ---------------------------------------------------------------------------
  // Failure containment
  // ---------------------------------------------------------------------------

  /** Each element of `c` depends on the next one. */
  predicate Chain<ID(==)>(p: Plan<ID>, c: seq<ID>) {
    c != [] && forall i :: 0 <= i < |c| - 1 ==> c[i] in p.deps && c[i + 1] in p.deps[c[i]]
  }

  /** Never launched: pending, and nothing it would dispatch has been dispatched. */
  ghost predicate Untouched<ID>(p: Plan<ID>, s: Sys<ID>, n: ID) {
    Is(s.states, n, Pending) && forall x :: x in TargetsOf(p, n) ==> x !in s.dispatched
  }

  lemma PendingIsUntouched<ID>(p: Plan<ID>, s: Sys<ID>, n: ID)
    requires Flat(p) && Inv(p, s) && Is(s.states, n, Pending)
    ensures Untouched(p, s, n)
  {
  }

  /** In any state that keeps the invariant a chain of dependencies to a failure is pending down to it. */
  lemma {:induction false} ChainToFailure<ID>(p: Plan<ID>, s: Sys<ID>, c: seq<ID>)
    requires Flat(p) && Inv(p, s) && Chain(p, c) && |c| >= 2
    requires Is(s.states, c[|c| - 1], Failed)
    ensures Untouched(p, s, c[0])
    decreases |c|
  {
    assert c[0] in p.deps && c[1] in p.deps[c[0]];
    if |c| > 2 {
      ChainTail(p, c);
      ChainToFailure(p, s, c[1..]);
    }
    UnsettledBlocks(p, s, c[0], c[1]);
  }

  lemma ChainTail<ID>(p: Plan<ID>, c: seq<ID>)
    requires Chain(p, c) && |c| >= 2
    ensures Chain(p, c[1..]) && c[1..][0] == c[1] && c[1..][|c| - 2] == c[|c| - 1]
  {
  }

  lemma UnsettledBlocks<ID>(p: Plan<ID>, s: Sys<ID>, n: ID, d: ID)
    requires Flat(p) && Inv(p, s) && n in p.deps && d in p.deps[n] && !Settled(s.states, d)
    ensures Untouched(p, s, n)
  {
    assert n in Records(p);
    PendingIsUntouched(p, s, n);
  }

  /** Once a node has failed, its transitive dependents stay pending and undispatched for ever. */
  lemma FailureContainment<ID>(p: Plan<ID>, s: Sys<ID>, ops: seq<Op<ID>>, more: seq<Op<ID>>, c: seq<ID>)
    requires Flat(p) && Fresh(p, s) && Possible(p, s, ops) && Possible(p, Exec(p, s, ops), more)
    requires Chain(p, c) && |c| >= 2 && Is(Exec(p, s, ops).states, c[|c| - 1], Failed)
    ensures Untouched(p, Exec(p, Exec(p, s, ops), more), c[0])
  {
    FreshHolds(p, s);
    RunKeeps(p, s, ops);
    RunKeeps(p, Exec(p, s, ops), more);
    ChainToFailure(p, Exec(p, Exec(p, s, ops), more), c);
  }

  /** Every member of the set waits for a member of the set, or for an id without a record. */
  ghost predicate StuckSet<ID>(p: Plan<ID>, c: set<ID>) {
    forall n :: n in c ==> n in p.deps && exists d :: d in p.deps[n] && (d in c || d !in Records(p))
  }

  ghost predicate AllPending<ID>(s: Sys<ID>, c: set<ID>) {
    forall n :: n in c ==> Is(s.states, n, Pending)
  }

  /** A node the loop acts on is in no stuck set. */
  lemma ActedOnIsNotStuck<ID>(p: Plan<ID>, s: Sys<ID>, id: ID, c: set<ID>)
    requires Flat(p) && Inv(p, s) && s.phase.Looping? && id in s.phase.rest
    requires DecideOn(id, p.deps[id], id in p.passing, s.phase.snap) != Leave
    requires StuckSet(p, c) && AllPending(s, c)
    ensures id !in c
  {
    ActedOnIsPending(p, s, id);
    if id in c {
      var d :| d in p.deps[id] && (d in c || d !in Records(p));
    }
  }

  /** Nor is a reported one. */
  lemma ReportedIsNotStuck<ID>(p: Plan<ID>, s: Sys<ID>, id: ID, c: set<ID>)
    requires Flat(p) && Inv(p, s) && id in s.dispatched && id !in s.reports
    requires StuckSet(p, c) && AllPending(s, c)
    ensures id !in c
  {
    ReportableIsOpen(p, s, id);
  }

  lemma VisitSparesStuck<ID>(p: Plan<ID>, s: Sys<ID>, id: ID, w: Write, c: set<ID>)
    requires Flat(p) && Inv(p, s) && Enabled(p, s, Visit(id, w)) && StuckSet(p, c) && AllPending(s, c)
    ensures AllPending(VisitNode(p, s, id, w), c)
  {
    if DecideOn(id, p.deps[id], id in p.passing, s.phase.snap) != Leave {
      ActedOnIsNotStuck(p, s, id, c);
    }
  }

  lemma ReportSparesStuck<ID>(p: Plan<ID>, s: Sys<ID>, id: ID, success: bool, w: Write, c: set<ID>)
    requires Flat(p) && Inv(p, s) && id in s.dispatched && id !in s.reports
    requires StuckSet(p, c) && AllPending(s, c)
    ensures AllPending(WriteNode(s, id, success, w), c)
  {
    ReportedIsNotStuck(p, s, id, c);
  }

  lemma StuckStep<ID>(p: Plan<ID>, s: Sys<ID>, op: Op<ID>, c: set<ID>)
    requires Flat(p) && Inv(p, s) && Enabled(p, s, op) && StuckSet(p, c) && AllPending(s, c)
    ensures AllPending(Do(p, s, op), c)
  {
    match op
    case Visit(id, w) => VisitSparesStuck(p, s, id, w, c);
    case WriteReport(id, success, w) => ReportSparesStuck(p, s, id, success, w, c);
    case _ => DoWrites(p, s, op);
  }

  /** Which record an operation may write. */
  lemma DoWrites<ID>(p: Plan<ID>, s: Sys<ID>, op: Op<ID>)
    requires Enabled(p, s, op)
    ensures match op
            case Visit(id, w) =>
              && (forall x :: x in s.states && x != id ==> x in Do(p, s, op).states && Do(p, s, op).states[x] == s.states[x])
              && (DecideOn(id, p.deps[id], id in p.passing, s.phase.snap) == Leave ==> Do(p, s, op).states == s.states)
            case WriteReport(id, success, w) =>
              forall x :: x in s.states && x != id ==> x in Do(p, s, op).states && Do(p, s, op).states[x] == s.states[x]
            case _ => Do(p, s, op).states == s.states
    ensures s.published <= Do(p, s, op).published
    ensures op != Send ==> Do(p, s, op).dispatched == s.dispatched
  {
  }

  /** A stuck set never leaves pending. */
  lemma {:induction false} StuckStays<ID>(p: Plan<ID>, s: Sys<ID>, ops: seq<Op<ID>>, c: set<ID>)
    requires Flat(p) && Inv(p, s) && Possible(p, s, ops) && StuckSet(p, c) && AllPending(s, c)
    ensures AllPending(Exec(p, s, ops), c)
    decreases |ops|
  {
    if ops != [] {
      StuckStep(p, s, ops[0], c);
      StepKeeps(p, s, ops[0]);
      StuckStays(p, Do(p, s, ops[0]), ops[1..], c);
    }
  }

  /** The last element waits for an earlier one, or for an id without a record. */
  predicate DeadEnd<ID(==)>(p: Plan<ID>, c: seq<ID>)
    requires c != []
  {
    var last := c[|c| - 1];
    last in p.deps && exists d :: d in p.deps[last] && (d in c || d !in Records(p))
  }

  /** A node that leads into a cycle or to an undefined dependency is never launched, in any run. */
  lemma CyclesNeverRun<ID>(p: Plan<ID>, s: Sys<ID>, ops: seq<Op<ID>>, c: seq<ID>)
    requires Flat(p) && Fresh(p, s) && Possible(p, s, ops)
    requires Chain(p, c) && DeadEnd(p, c)
    ensures Untouched(p, Exec(p, s, ops), c[0])
  {
    var all := ToSet(c);
    FreshHolds(p, s);
    forall n | n in all
      ensures n in p.deps && exists d :: d in p.deps[n] && (d in all || d !in Records(p))
    {
      var i :| 0 <= i < |c| && c[i] == n;
      if i < |c| - 1 {
        assert c[i + 1] in p.deps[n] && c[i + 1] in all;
      } else {
        var d :| d in p.deps[n] && (d in c || d !in Records(p));
        assert d in c ==> d in all;
      }
    }
    StuckStays(p, s, ops, all);
    RunKeeps(p, s, ops);
    PendingIsUntouched(p, Exec(p, s, ops), c[0]);
  }

  // ---------------------------------------------------------------------------
  // Conditions and outcomes
  // ---------------------------------------------------------------------------

  /** Every report carries the outcome of its job. */
  predicate Truthful<ID>(ops: seq<Op<ID>>, succeeds: ID -> bool) {
    forall i :: 0 <= i < |ops| && ops[i].WriteReport? ==> ops[i].success == succeeds(ops[i].id)
  }

  /** A node that has left pending is where its conditions and the outcome of its job put it. */
  ghost predicate GatesHold<ID>(p: Plan<ID>, succeeds: ID -> bool, states: Table<ID>) {
    && (forall n :: n in p.deps && Is(states, n, Skipped) ==> n !in p.passing)
    && (forall n :: n in p.deps && n in states && states[n] != Skipped && states[n] != Pending ==> n in p.passing)
    && (forall x :: x in states && states[x] == Success ==> succeeds(x))
    && (forall x :: x in states && states[x] == Failed ==> !succeeds(x))
  }

  lemma VisitKeepsGates<ID>(p: Plan<ID>, s: Sys<ID>, succeeds: ID -> bool, id: ID, w: Write)
    requires Enabled(p, s, Visit(id, w)) && GatesHold(p, succeeds, s.states)
    ensures GatesHold(p, succeeds, VisitNode(p, s, id, w).states)
  {
  }

  lemma ReportKeepsGates<ID>(p: Plan<ID>, s: Sys<ID>, succeeds: ID -> bool, id: ID, w: Write)
    requires Flat(p) && Inv(p, s) && id in s.dispatched && id !in s.reports && GatesHold(p, succeeds, s.states)
    ensures GatesHold(p, succeeds, WriteNode(s, id, succeeds(id), w).states)
  {
    ReportableIsOpen(p, s, id);
    GatesAfterReport(p, s.states, succeeds, id, w);
  }

  lemma GatesAfterReport<ID>(p: Plan<ID>, states: Table<ID>, succeeds: ID -> bool, id: ID, w: Write)
    requires GatesHold(p, succeeds, states) && id in states && (id in p.deps ==> states[id] == Running)
    ensures GatesHold(p, succeeds, Written(states, id, Outcome(succeeds(id)), w))
  {
  }

  lemma GatesStep<ID>(p: Plan<ID>, s: Sys<ID>, succeeds: ID -> bool, op: Op<ID>)
    requires Flat(p) && Inv(p, s) && Enabled(p, s, op) && GatesHold(p, succeeds, s.states)
    requires op.WriteReport? ==> op.success == succeeds(op.id)
    ensures GatesHold(p, succeeds, Do(p, s, op).states)
  {
    match op
    case Visit(id, w) => VisitKeepsGates(p, s, succeeds, id, w);
    case WriteReport(id, _, w) => ReportKeepsGates(p, s, succeeds, id, w);
    case _ => DoWrites(p, s, op);
  }

  /** Over any interleaving with truthful reports, whatever writes fail. */
  lemma {:induction false} GatesStay<ID>(p: Plan<ID>, s: Sys<ID>, succeeds: ID -> bool, ops: seq<Op<ID>>)
    requires Flat(p) && Inv(p, s) && Possible(p, s, ops) && GatesHold(p, succeeds, s.states) && Truthful(ops, succeeds)
    ensures GatesHold(p, succeeds, Exec(p, s, ops).states)
    decreases |ops|
  {
    if ops != [] {
      GatesStep(p, s, succeeds, ops[0]);
      StepKeeps(p, s, ops[0]);
      GatesStay(p, Do(p, s, ops[0]), succeeds, ops[1..]);
    }
  }

  // ---------------------------------------------------------------------------
  // Finalisation
  // ---------------------------------------------------------------------------

  /**
   * All calls that finalise write the same state, failed exactly when some node failed; after the
   * first of them nothing is dispatched and no record changes.
   */
  lemma FinalStateAgreed<ID>(p: Plan<ID>, s: Sys<ID>, ops: seq<Op<ID>>, more: seq<Op<ID>>)
    requires Flat(p) && Fresh(p, s) && Possible(p, s, ops) && Possible(p, Exec(p, s, ops), more)
    requires Exec(p, s, ops).published != []
    ensures var t, u := Exec(p, s, ops), Exec(p, Exec(p, s, ops), more);
            && u.states == t.states && u.dispatched == t.dispatched && u.run == t.run == t.published[0]
            && (forall r :: r in u.published ==> r == t.published[0])
            && (t.published[0] == RunFailed <==> exists x :: x in t.states && t.states[x] == Failed)
            && (forall n, d :: n in p.deps && d in p.deps[n] ==> Settled(t.states, d))
  {
    FreshHolds(p, s);
    RunKeeps(p, s, ops);
    PublishedState(p, Exec(p, s, ops));
    assert Exec(p, s, ops).published[0] in Exec(p, s, ops).published;
    PublishedIsDone(p, Exec(p, s, ops), more);
    PublishedState(p, Exec(p, Exec(p, s, ops), more));
  }

  lemma PublishedState<ID>(p: Plan<ID>, t: Sys<ID>)
    requires Flat(p) && Inv(p, t) && t.published != []
    ensures AllTerminal(t.states) && t.run == FinalState(t.states) && forall r :: r in t.published ==> r == t.run
    ensures t.run == RunFailed <==> exists x :: x in t.states && t.states[x] == Failed
    ensures forall n, d :: n in p.deps && d in p.deps[n] ==> Settled(t.states, d)
  {
    assert t.published[0] in t.published;
    forall n, d | n in p.deps && d in p.deps[n]
      ensures Settled(t.states, d)
    {
      assert n in Records(p);
    }
  }

  lemma NoSendWhenDone<ID>(p: Plan<ID>, s: Sys<ID>)
    requires PhaseHolds(p, s.phase, s.states, s.dispatched) && AllTerminal(s.states)
    ensures !s.phase.Firing?
  {
  }

  lemma PublishedStep<ID>(p: Plan<ID>, s: Sys<ID>, op: Op<ID>)
    requires Flat(p) && Inv(p, s) && Enabled(p, s, op) && AllTerminal(s.states)
    ensures Do(p, s, op).states == s.states && Do(p, s, op).dispatched == s.dispatched && s.published <= Do(p, s, op).published
  {
    NoSendWhenDone(p, s);
    DoWrites(p, s, op);
    StepKeeps(p, s, op);
    TerminalIsFinal(s.states, Do(p, s, op).states);
  }

  lemma {:induction false} PublishedIsDone<ID>(p: Plan<ID>, s: Sys<ID>, ops: seq<Op<ID>>)
    requires Flat(p) && Inv(p, s) && Possible(p, s, ops) && AllTerminal(s.states)
    ensures var t := Exec(p, s, ops);
            Inv(p, t) && t.states == s.states && t.dispatched == s.dispatched && s.published <= t.published
    decreases |ops|
  {
    if ops != [] {
      StepKeeps(p, s, ops[0]);
      PublishedStep(p, s, ops[0]);
      PublishedIsDone(p, Do(p, s, ops[0]), ops[1..]);
    }
  }

  /**
   * No lost finalisation: when the write that left every record terminal came from a report, the
   * run is finalised with the state of the table, unless that report is still on its way or one of
   * its own operations failed.
   */
  lemma NoLostFinalisation<ID(!new)>(p: Plan<ID>, s: Sys<ID>, ops: seq<Op<ID>>)
    requires Flat(p) && Fresh(p, s) && Possible(p, s, ops) && Exec(p, s, ops).closer.Some?
    ensures var t := Exec(p, s, ops);
            var c := t.closer.value;
            && AllTerminal(t.states) && c in t.reports
            && (t.reports[c] == Ended(false) ==> t.published != [] && t.run == FinalState(t.states))
            && (t.reports[c] == Ended(false) || t.reports[c] == Ended(true) || CanFinalise(p, t))
  {
    FreshHolds(p, s);
    RunKeeps(p, s, ops);
    var t := Exec(p, s, ops);
    CloserStands(t);
    if t.reports[t.closer.value] == Wrote || t.reports[t.closer.value] == Read(t.states) {
      var rest := CloserFinishes(p, t);
    }
  }

  /** Some continuation publishes the state of the table. */
  ghost predicate CanFinalise<ID(!new)>(p: Plan<ID>, t: Sys<ID>) {
    exists rest :: Possible(p, t, rest) && Exec(p, t, rest).run == FinalState(t.states)
                   && Exec(p, t, rest).published == t.published + [FinalState(t.states)]
  }

  /** The report whose write succeeds and leaves every record terminal is the closing one. */
  lemma ClosingWrite<ID>(p: Plan<ID>, s: Sys<ID>, id: ID, success: bool)
    requires Flat(p) && Inv(p, s) && Enabled(p, s, WriteReport(id, success, Applied))
    ensures var t := Do(p, s, WriteReport(id, success, Applied));
            && !AllTerminal(s.states)
            && (AllTerminal(t.states) ==> t.closer == Some(id) && t.reports[id] == Wrote && t.published == [] && t.run == RunRunning)
            && (!AllTerminal(t.states) ==> t.closer == s.closer)
  {
    ReportableIsOpen(p, s, id);
  }

  /** The closing report stays the closing one. */
  lemma {:induction false} CloserStays<ID>(p: Plan<ID>, s: Sys<ID>, ops: seq<Op<ID>>)
    requires Flat(p) && Inv(p, s) && Possible(p, s, ops) && AllTerminal(s.states)
    ensures Exec(p, s, ops).closer == s.closer
    decreases |ops|
  {
    if ops != [] {
      CloserStep(p, s, ops[0]);
      StepKeeps(p, s, ops[0]);
      PublishedStep(p, s, ops[0]);
      CloserStays(p, Do(p, s, ops[0]), ops[1..]);
    }
  }

  lemma CloserStep<ID>(p: Plan<ID>, s: Sys<ID>, op: Op<ID>)
    requires Flat(p) && Inv(p, s) && Enabled(p, s, op) && AllTerminal(s.states)
    ensures Do(p, s, op).closer == s.closer
  {
    if op.WriteReport? {
      ReportableIsOpen(p, s, op.id);
    }
  }

  /**
   * No lost finalisation, from the write on: if a report's write leaves every record terminal, then
   * after whatever follows the run is finalised with the state of the table, or this very report can
   * still do it, or one of its own operations failed.
   */
  lemma ClosingWriteFinalises<ID(!new)>(p: Plan<ID>, s: Sys<ID>, before: seq<Op<ID>>, id: ID, success: bool, more: seq<Op<ID>>)
    requires Flat(p) && Fresh(p, s) && Possible(p, s, before)
    requires Enabled(p, Exec(p, s, before), WriteReport(id, success, Applied))
    requires var t := Do(p, Exec(p, s, before), WriteReport(id, success, Applied));
             AllTerminal(t.states) && Possible(p, t, more)
    ensures var u := Exec(p, Do(p, Exec(p, s, before), WriteReport(id, success, Applied)), more);
            && AllTerminal(u.states) && id in u.reports
            && match u.reports[id]
               case Ended(fault) => fault || (u.published != [] && u.run == FinalState(u.states))
               case _ => CanFinalise(p, u)
  {
    var r, w := Exec(p, s, before), WriteReport(id, success, Applied);
    FreshHolds(p, s);
    RunKeeps(p, s, before);
    ClosingWrite(p, r, id, success);
    StepKeeps(p, r, w);
    CloserStays(p, Do(p, r, w), more);
    RunKeeps(p, Do(p, r, w), more);
    CloserInTheEnd(p, Exec(p, Do(p, r, w), more));
  }

  lemma CloserInTheEnd<ID(!new)>(p: Plan<ID>, t: Sys<ID>)
    requires Inv(p, t) && t.closer.Some?
    ensures var c := t.closer.value;
            && AllTerminal(t.states) && c in t.reports
            && match t.reports[c]
               case Ended(fault) => fault || (t.published != [] && t.run == FinalState(t.states))
               case _ => CanFinalise(p, t)
  {
    CloserStands(t);
    if !t.reports[t.closer.value].Ended? {
      var rest := CloserFinishes(p, t);
    }
  }

  lemma CloserStands<ID>(t: Sys<ID>)
    requires FinalHolds(t.states, t.reports, t.run, t.published, t.closer) && t.closer.Some?
    ensures var c := t.closer.value;
            && AllTerminal(t.states) && c in t.reports
            && (t.reports[c] == Ended(false) ==> t.published != [] && t.run == FinalState(t.states))
            && (t.reports[c].Read? ==> t.reports[c] == Read(t.states))
  {
  }

  lemma CloserFinishes<ID>(p: Plan<ID>, t: Sys<ID>) returns (rest: seq<Op<ID>>)
    requires t.closer.Some? && t.closer.value in t.reports && AllTerminal(t.states)
    requires t.reports[t.closer.value] == Wrote || t.reports[t.closer.value] == Read(t.states)
    ensures Possible(p, t, rest) && Exec(p, t, rest).run == FinalState(t.states)
    ensures Exec(p, t, rest).published == t.published + [FinalState(t.states)]
  {
    var c := t.closer.value;
    if t.reports[c] == Wrote {
      var u := Do(p, t, ReadReport(c, true));
      rest := [ReadReport(c, true), EndReport(c, Applied)];
      OneStep(p, u, EndReport(c, Applied));
      assert rest[1..] == [EndReport(c, Applied)];
    } else {
      rest := [EndReport(c, Applied)];
      OneStep(p, t, EndReport(c, Applied));
    }
  }

  lemma OneStep<ID>(p: Plan<ID>, s: Sys<ID>, op: Op<ID>)
    requires Enabled(p, s, op)
    ensures Possible(p, s, [op]) && Exec(p, s, [op]) == Do(p, s, op)
  {
    assert [op][1..] == [];
  }

  /** A member of a stage that was not launched is pending. */
  lemma MemberStaysOpen<ID>(p: Plan<ID>, s: Sys<ID>, n: ID, x: ID)
    requires Flat(p) && Inv(p, s) && n in p.deps && n !in p.owner && x in p.targets[n]
    requires Is(s.states, n, Skipped)
    ensures Is(s.states, x, Pending)
  {
    assert n in p.targets && x in Records(p) && p.owner[x] == n;
    assert x !in p.deps;
  }

  /** A finalised node that nobody reports was skipped, and had nothing to dispatch. */
  lemma UnreportedNode<ID>(p: Plan<ID>, s: Sys<ID>, n: ID)
    requires Flat(p) && Inv(p, s) && AllTerminal(s.states) && n in p.deps && n !in p.owner
    ensures Is(s.states, n, Skipped) && p.targets[n] == []
  {
    assert n in Records(p);
    if p.targets[n] != [] {
      MemberStaysOpen(p, s, n, p.targets[n][0]);
    }
  }

  /** The reports that can still complete a run all of whose records are terminal. */
  predicate CanComplete<ID>(r: Report<ID>) {
    r == Wrote || (r.Read? && AllTerminal(r.seen))
  }

  function InFlight<ID>(s: Sys<ID>): set<ID> {
    set c | c in s.reports && CanComplete(s.reports[c])
  }

  lemma ReadCompletion<ID>(s: Sys<ID>, id: ID, r: Report<ID>)
    requires id in s.reports && s.reports[id] == Wrote
    ensures |InFlight(s.(reports := s.reports[id := r]))| <= |InFlight(s)|
  {
    var t := s.(reports := s.reports[id := r]);
    assert InFlight(t) == if CanComplete(r) then InFlight(s) else InFlight(s) - {id};
  }

  lemma EndCompletion<ID>(s: Sys<ID>, id: ID, w: Write)
    requires id in s.reports && s.reports[id].Read?
    ensures |EndNode(s, id, w).published| + |InFlight(EndNode(s, id, w))| <= |s.published| + |InFlight(s)|
  {
    assert InFlight(EndNode(s, id, w)) == InFlight(s) - {id};
  }

  lemma CompletionStep<ID>(p: Plan<ID>, s: Sys<ID>, op: Op<ID>)
    requires Flat(p) && Inv(p, s) && Enabled(p, s, op) && AllTerminal(s.states)
    ensures |Do(p, s, op).published| + |InFlight(Do(p, s, op))| <= |s.published| + |InFlight(s)|
  {
    match op
    case WriteReport(id, success, w) => ReportableIsOpen(p, s, id);
    case ReadReport(id, ok) => ReadCompletion(s, id, if ok then Read(s.states) else Ended(true));
    case EndReport(id, w) => EndCompletion(s, id, w);
    case _ => SameReports(p, s, op);
  }

  lemma SameReports<ID>(p: Plan<ID>, s: Sys<ID>, op: Op<ID>)
    requires Enabled(p, s, op) && (op.List? || op.Visit? || op.Send? || op.Finish?)
    ensures Do(p, s, op).published == s.published && InFlight(Do(p, s, op)) == InFlight(s)
  {
  }

  /** A run all of whose records are terminal completes at most as often as it has reports in flight. */
  lemma {:induction false} CompletionsBounded<ID>(p: Plan<ID>, s: Sys<ID>, ops: seq<Op<ID>>)
    requires Flat(p) && Inv(p, s) && Possible(p, s, ops) && AllTerminal(s.states)
    ensures |Exec(p, s, ops).published| <= |s.published| + |InFlight(s)|
    decreases |ops|
  {
    if ops != [] {
      CompletionStep(p, s, ops[0]);
      PublishedStep(p, s, ops[0]);
      StepKeeps(p, s, ops[0]);
      CompletionsBounded(p, Do(p, s, ops[0]), ops[1..]);
    }
  }

  /** One report in flight finishes and completes the run. */
  lemma ReportCompletes<ID>(p: Plan<ID>, s: Sys<ID>, c: ID) returns (ops: seq<Op<ID>>, t: Sys<ID>)
    requires c in InFlight(s) && AllTerminal(s.states)
    ensures Possible(p, s, ops) && t == Exec(p, s, ops) && t.states == s.states
    ensures |t.published| == |s.published| + 1 && InFlight(t) == InFlight(s) - {c}
  {
    var u := if s.reports[c] == Wrote then Do(p, s, ReadReport(c, true)) else s;
    ops := [EndReport(c, Applied)];
    OneStep(p, u, EndReport(c, Applied));
    t := Do(p, u, EndReport(c, Applied));
    if s.reports[c] == Wrote {
      ops := Prefixed(p, s, ReadReport(c, true), ops);
    }
  }

  /** And it can complete that often: never if none is in flight, twice if two are. */
  lemma {:induction false} CompletionsReached<ID>(p: Plan<ID>, s: Sys<ID>) returns (ops: seq<Op<ID>>)
    requires AllTerminal(s.states)
    ensures Possible(p, s, ops) && |Exec(p, s, ops).published| == |s.published| + |InFlight(s)|
    decreases |InFlight(s)|
  {
    if InFlight(s) == {} {
      ops := [];
    } else {
      var c :| c in InFlight(s);
      var first, t := ReportCompletes(p, s, c);
      var rest := CompletionsReached(p, t);
      ops := Joined(p, s, first, rest);
    }
  }

  /** Once every record is terminal the run can still be finalised exactly if such a report is in flight. */
  lemma CompletesIffInFlight<ID(!new)>(p: Plan<ID>, s: Sys<ID>)
    requires Flat(p) && Inv(p, s) && AllTerminal(s.states) && s.published == []
    ensures (exists ops :: Possible(p, s, ops) && Exec(p, s, ops).published != []) <==> InFlight(s) != {}
  {
    forall ops | Possible(p, s, ops)
      ensures |Exec(p, s, ops).published| <= |InFlight(s)|
    {
      CompletionsBounded(p, s, ops);
    }
    var ops := CompletionsReached(p, s);
  }

  // ---------------------------------------------------------------------------
  // Runs of one and of two jobs
  // ---------------------------------------------------------------------------

  /** The conditions of the one node fail, and the Advance skips it. */
  lemma SkipsTheOne<ID>(p: Plan<ID>, s: Sys<ID>, x: ID) returns (ops: seq<Op<ID>>)
    requires p.deps == map[x := []] && p.passing == {}
    requires s.states == map[x := Pending] && s.phase == Idle
    ensures Possible(p, s, ops)
    ensures var t := Exec(p, s, ops);
            t.states == map[x := Skipped] && t.run == s.run && t.reports == s.reports && t.published == s.published
  {
    var listed := Do(p, s, List);
    ops := [Visit(x, Applied)];
    OneStep(p, listed, Visit(x, Applied));
    ops := Prefixed(p, s, List, ops);
  }

  /** Both nodes are launched, both reports write before either lists, and both complete the run. */
  lemma CompletesTwice<ID>(p: Plan<ID>, s: Sys<ID>, x: ID, y: ID) returns (ops: seq<Op<ID>>)
    requires x != y && p.deps == map[x := [], y := []] && p.passing == {x, y} && p.targets == map[x := [x], y := [y]]
    requires s.states == map[x := Pending, y := Pending] && s.phase == Idle
    requires s.dispatched == map[] && s.reports == map[] && s.published == []
    ensures Possible(p, s, ops) && Exec(p, s, ops).published == [RunSuccess, RunSuccess]
  {
    var launch, t := BothLaunch(p, s, x, y);
    var rest := BothReport(p, t, x, y);
    ops := Joined(p, s, launch, rest);
  }

  lemma BothReport<ID>(p: Plan<ID>, t: Sys<ID>, x: ID, y: ID) returns (ops: seq<Op<ID>>)
    requires x != y && t.states == map[x := Running, y := Running] && x in t.dispatched && y in t.dispatched
    requires t.reports == map[] && t.published == []
    ensures Possible(p, t, ops) && Exec(p, t, ops).published == [RunSuccess, RunSuccess]
  {
    var a := Do(p, t, WriteReport(x, true, Applied));
    var b := Do(p, a, WriteReport(y, true, Applied));
    assert b.states == map[x := Success, y := Success] && AllTerminal(b.states) && FinalState(b.states) == RunSuccess;
    ops := BothComplete(p, b, x, y);
    ops := Prefixed(p, a, WriteReport(y, true, Applied), ops);
    ops := Prefixed(p, t, WriteReport(x, true, Applied), ops);
  }

  lemma BothLaunch<ID>(p: Plan<ID>, s: Sys<ID>, x: ID, y: ID) returns (ops: seq<Op<ID>>, t: Sys<ID>)
    requires x != y && p.deps == map[x := [], y := []] && p.passing == {x, y} && p.targets == map[x := [x], y := [y]]
    requires s.states == map[x := Pending, y := Pending] && s.phase == Idle && s.dispatched == map[]
    ensures Possible(p, s, ops) && t == Exec(p, s, ops)
    ensures t.states == map[x := Running, y := Running] && x in t.dispatched && y in t.dispatched
    ensures t.reports == s.reports && t.published == s.published
  {
    var a := Do(p, s, List);
    var first, b := VisitAndSend(p, a, x, Applied);
    var second, c := VisitAndSend(p, b, y, Applied);
    t := c;
    CountsOne(s.dispatched, x);
    CountsOne(b.dispatched, y);
    ops := Joined(p, a, first, second);
    ops := Prefixed(p, s, List, ops);
  }

  lemma CountsOne<ID>(calls: map<ID, nat>, x: ID)
    ensures CountAll(calls, [x]) == Count(calls, x)
  {
    assert [x][1..] == [];
  }

  lemma BothComplete<ID>(p: Plan<ID>, b: Sys<ID>, x: ID, y: ID) returns (ops: seq<Op<ID>>)
    requires x != y && AllTerminal(b.states) && FinalState(b.states) == RunSuccess
    requires b.reports == map[x := Wrote, y := Wrote] && b.published == []
    ensures Possible(p, b, ops) && Exec(p, b, ops).published == [RunSuccess, RunSuccess]
  {
    var c := Do(p, b, ReadReport(x, true));
    var d := Do(p, c, ReadReport(y, true));
    var e := Do(p, d, EndReport(x, Applied));
    ops := [EndReport(y, Applied)];
    OneStep(p, e, EndReport(y, Applied));
    ops := Prefixed(p, d, EndReport(x, Applied), ops);
    ops := Prefixed(p, c, ReadReport(y, true), ops);
    ops := Prefixed(p, b, ReadReport(x, true), ops);
  }

  lemma Prefixed<ID>(p: Plan<ID>, s: Sys<ID>, op: Op<ID>, ops: seq<Op<ID>>) returns (all: seq<Op<ID>>)
    requires Enabled(p, s, op) && Possible(p, Do(p, s, op), ops)
    ensures all == [op] + ops && Possible(p, s, all) && Exec(p, s, all) == Exec(p, Do(p, s, op), ops)
  {
    all := [op] + ops;
    assert all[1..] == ops;
  }

  // ---------------------------------------------------------------------------
  // Uninterrupted calls
  // ---------------------------------------------------------------------------

  /** The state one Advance gives a record. */
  function AdvancedRecord<ID>(p: Plan<ID>, snap: Table<ID>, x: ID): NodeState
    requires x in snap && x in p.deps
  {
    match DecideOn(x, p.deps[x], x in p.passing, snap)
    case Leave => snap[x]
    case Skip => Skipped
    case Launch => Running
  }

  /** The table after the loop has gone through `rest`, no write failing. */
  function LoopedOver<ID>(p: Plan<ID>, states: Table<ID>, snap: Table<ID>, rest: set<ID>): (t: Table<ID>)
    requires rest <= p.deps.Keys && rest <= snap.Keys
  {
    map x | x in states :: if x in rest then AdvancedRecord(p, snap, x) else states[x]
  }

  /** What visiting one node makes of the table, and what it dispatches. */
  function Marked<ID>(p: Plan<ID>, snap: Table<ID>, id: ID, states: Table<ID>, w: Write): Table<ID>
    requires id in p.deps
  {
    match DecideOn(id, p.deps[id], id in p.passing, snap)
    case Leave => states
    case Skip => Written(states, id, Skipped, w)
    case Launch => Written(states, id, Running, w)
  }

  function Fired<ID>(p: Plan<ID>, snap: Table<ID>, id: ID, w: Write): seq<ID>
    requires id in p.deps
  {
    if DecideOn(id, p.deps[id], id in p.passing, snap) == Launch && w == Applied then TargetsOf(p, id) else []
  }

  /** The same for the nodes of a list, the i-th write having the i-th outcome. */
  function AllMarked<ID>(p: Plan<ID>, snap: Table<ID>, order: seq<ID>, w: nat -> Write, states: Table<ID>): Table<ID>
    requires forall x :: x in order ==> x in p.deps
  {
    if order == [] then states
    else
      var last := |order| - 1;
      Marked(p, snap, order[last], AllMarked(p, snap, order[..last], w, states), w(last))
  }

  function AllFired<ID>(p: Plan<ID>, snap: Table<ID>, order: seq<ID>, w: nat -> Write): seq<ID>
    requires forall x :: x in order ==> x in p.deps
  {
    if order == [] then []
    else
      var last := |order| - 1;
      AllFired(p, snap, order[..last], w) + Fired(p, snap, order[last], w(last))
  }

  function CountAll<ID>(calls: map<ID, nat>, ids: seq<ID>): map<ID, nat>
    decreases |ids|
  {
    if ids == [] then calls else CountAll(Count(calls, ids[0]), ids[1..])
  }

  lemma {:induction false} CountAllAppend<ID>(calls: map<ID, nat>, a: seq<ID>, b: seq<ID>)
    ensures CountAll(calls, a + b) == CountAll(CountAll(calls, a), b)
    decreases |a|
  {
    if a == [] {
      AppendEmpty(b);
    } else {
      assert (a + b)[1..] == a[1..] + b;
      CountAllAppend(Count(calls, a[0]), a[1..], b);
    }
  }

  /** Counting a list of ids counts each as often as it stands there. */
  lemma {:induction false} CountsOccurrences<ID>(calls: map<ID, nat>, ids: seq<ID>, x: ID)
    ensures var t := CountAll(calls, ids);
            && (x in t <==> x in calls || x in ids)
            && (x in t ==> t[x] == (if x in calls then calls[x] else 0) + multiset(ids)[x])
    decreases |ids|
  {
    if ids != [] {
      assert ids == [ids[0]] + ids[1..];
      CountsOccurrences(Count(calls, ids[0]), ids[1..], x);
    }
  }

  /** No report writes. */
  predicate Quiet<ID>(ops: seq<Op<ID>>) {
    forall i :: 0 <= i < |ops| ==> !ops[i].WriteReport?
  }

  /** An Advance leaves the reports and the run alone. */
  predicate SameRun<ID>(s: Sys<ID>, t: Sys<ID>) {
    t.reports == s.reports && t.run == s.run && t.published == s.published && t.closer == s.closer
  }

  /**
   * The operations of an Advance that nothing interrupts, whatever its writes come to: the records
   * and the dispatches are those of the loop over the nodes in the given order.
   */
  lemma UninterruptedAdvance<ID>(p: Plan<ID>, s: Sys<ID>, order: seq<ID>, w: nat -> Write) returns (ops: seq<Op<ID>>)
    requires s.phase == Idle && Distinct(order) && forall x :: x in order <==> x in p.deps
    ensures Possible(p, s, ops) && Quiet(ops)
    ensures var t := Exec(p, s, ops);
            && t.states == AllMarked(p, s.states, order, w, s.states)
            && t.dispatched == CountAll(s.dispatched, AllFired(p, s.states, order, w))
            && t.phase == Idle && SameRun(s, t)
  {
    var listed := Do(p, s, List);
    var visits, u := VisitAll(p, listed, order, w);
    OneStep(p, u, Finish);
    ops := Joined(p, listed, visits, [Finish]);
    ops := Prefixed(p, s, List, ops);
  }

  lemma {:induction false} VisitAll<ID>(p: Plan<ID>, s: Sys<ID>, order: seq<ID>, w: nat -> Write) returns (ops: seq<Op<ID>>, u: Sys<ID>)
    requires s.phase.Looping? && Distinct(order) && forall x :: x in order ==> x in s.phase.rest && x in p.deps
    ensures Possible(p, s, ops) && Quiet(ops) && u == Exec(p, s, ops)
    ensures u.phase == Looping(s.phase.snap, s.phase.rest - ToSet(order)) && SameRun(s, u)
    ensures u.states == AllMarked(p, s.phase.snap, order, w, s.states)
    ensures u.dispatched == CountAll(s.dispatched, AllFired(p, s.phase.snap, order, w))
  {
    if order == [] {
      ops, u := [], s;
    } else {
      var last := |order| - 1;
      var id, snap := order[last], s.phase.snap;
      FrontOf(order);
      var first, t := VisitAll(p, s, order[..last], w);
      var visit;
      visit, u := VisitAndSend(p, t, id, w(last));
      CountAllAppend(s.dispatched, AllFired(p, snap, order[..last], w), Fired(p, snap, id, w(last)));
      ops := Joined(p, s, first, visit);
    }
  }

  /** One iteration of the loop with its dispatches. */
  lemma VisitAndSend<ID>(p: Plan<ID>, s: Sys<ID>, id: ID, w: Write) returns (ops: seq<Op<ID>>, u: Sys<ID>)
    requires s.phase.Looping? && id in s.phase.rest && id in p.deps
    ensures Possible(p, s, ops) && Quiet(ops) && u == Exec(p, s, ops)
    ensures u.phase == Looping(s.phase.snap, s.phase.rest - {id}) && SameRun(s, u)
    ensures u.states == Marked(p, s.phase.snap, id, s.states, w)
    ensures u.dispatched == CountAll(s.dispatched, Fired(p, s.phase.snap, id, w))
  {
    ops, u := SendRest(p, Do(p, s, Visit(id, w)));
    ops := Prefixed(p, s, Visit(id, w), ops);
  }

  function ToSend<ID>(phase: Phase<ID>): seq<ID> {
    if phase.Firing? then phase.todo else []
  }

  lemma {:induction false} SendRest<ID>(p: Plan<ID>, s: Sys<ID>) returns (ops: seq<Op<ID>>, t: Sys<ID>)
    requires s.phase.Looping? || (s.phase.Firing? && s.phase.todo != [])
    ensures Possible(p, s, ops) && Quiet(ops) && t == Exec(p, s, ops)
    ensures t.phase == Looping(s.phase.snap, s.phase.rest) && t.states == s.states && SameRun(s, t)
    ensures t.dispatched == CountAll(s.dispatched, ToSend(s.phase))
    decreases |ToSend(s.phase)|
  {
    if s.phase.Looping? {
      ops, t := [], s;
    } else {
      ops, t := SendRest(p, Do(p, s, Send));
      ops := Prefixed(p, s, Send, ops);
    }
  }

  /** If no write fails the loop is the simultaneous step over the nodes it visits. */
  lemma {:induction false} MarkedIsLoopedOver<ID>(p: Plan<ID>, snap: Table<ID>, order: seq<ID>, w: nat -> Write)
    requires Distinct(order) && (forall x :: x in order ==> x in p.deps && x in snap)
    requires forall i :: w(i) == Applied
    ensures AllMarked(p, snap, order, w, snap) == LoopedOver(p, snap, snap, ToSet(order))
  {
    if order != [] {
      var last := |order| - 1;
      MarkedIsLoopedOver(p, snap, order[..last], w);
      FrontOf(order);
      LoopedOverOne(p, snap, ToSet(order[..last]), order[last]);
    }
  }

  lemma LoopedOverOne<ID>(p: Plan<ID>, snap: Table<ID>, rest: set<ID>, id: ID)
    requires rest + {id} <= p.deps.Keys && rest + {id} <= snap.Keys && id !in rest
    ensures Marked(p, snap, id, LoopedOver(p, snap, snap, rest), Applied) == LoopedOver(p, snap, snap, rest + {id})
  {
  }

  lemma {:induction false} Joined<ID>(p: Plan<ID>, s: Sys<ID>, a: seq<Op<ID>>, b: seq<Op<ID>>) returns (all: seq<Op<ID>>)
    requires Possible(p, s, a) && Possible(p, Exec(p, s, a), b)
    ensures all == a + b && Possible(p, s, all) && Exec(p, s, all) == Exec(p, Exec(p, s, a), b)
    decreases |a|
  {
    if a == [] {
      all := b;
      AppendEmpty(b);
    } else {
      assert a == [a[0]] + a[1..];
      Associative([a[0]], a[1..], b);
      all := Joined(p, Do(p, s, a[0]), a[1..], b);
      all := Prefixed(p, s, a[0], all);
    }
  }

  /**
   * The operations of a NodeCompleted that nothing interrupts, whatever they come to: the record,
   * the row of the run and the completions are those of the code.
   */
  lemma UninterruptedReport<ID>(p: Plan<ID>, s: Sys<ID>, id: ID, success: bool, io: ReportIo) returns (ops: seq<Op<ID>>)
    requires id in s.dispatched && id !in s.reports
    ensures Possible(p, s, ops)
    ensures forall i :: 0 <= i < |ops| && ops[i].WriteReport? ==> ops[i].id == id && ops[i].success == success
    ensures var t := Exec(p, s, ops);
            && t.states == Written(s.states, id, Outcome(success), io.upsert)
            && t.run == (if Finalises(t.states, io) && io.update != Lost then FinalState(t.states) else s.run)
            && t.published == s.published + (if Finalises(t.states, io) && io.update == Applied then [FinalState(t.states)] else [])
            && t.phase == s.phase && t.dispatched == s.dispatched
            && t.reports == s.reports[id := Ended(!(io.upsert == Applied && io.list && (AllTerminal(t.states) ==> io.update == Applied)))]
  {
    var a := Do(p, s, WriteReport(id, success, io.upsert));
    if io.upsert != Applied {
      ops := [];
    } else {
      var b := Do(p, a, ReadReport(id, io.list));
      if !io.list {
        ops := [];
      } else {
        ops := [EndReport(id, io.update)];
        OneStep(p, b, EndReport(id, io.update));
      }
      ops := Prefixed(p, a, ReadReport(id, io.list), ops);
    }
    ops := Prefixed(p, s, WriteReport(id, success, io.upsert), ops);
  }
}
