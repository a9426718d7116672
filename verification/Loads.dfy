/** The load of connected agents, on values: what placements keep, and how good they are. */
module Loads {
  import opened Messages

  /** The jobs counted on an agent, and its capacity. */
  datatype Load = Load(active: int, capacity: int)

  type Agents<ID> = map<ID, Load>

  predicate Full(a: Load) {
    a.active >= a.capacity
  }

  /** What a negative or zero capacity admits is nothing. */
  function Room(a: Load): nat {
    if a.capacity > 0 then a.capacity else 0
  }

  /** An agent with room that runs no more jobs than any other agent with room. */
  predicate LeastLoaded<ID>(s: Agents<ID>, id: ID) {
    id in s && !Full(s[id]) && forall b :: b in s && !Full(s[b]) ==> s[id].active <= s[b].active
  }

  predicate NoRoom<ID>(s: Agents<ID>) {
    forall b :: b in s ==> Full(s[b])
  }

  // ---------------------------------------------------------------------------
  // Operations
  // ---------------------------------------------------------------------------

  datatype Outcome<ID> = Sent(agent: ID) | SendFailed(agent: ID) | NoAgents

  datatype Op<ID> =
    | Register(id: ID, capacity: int)
    | Disconnect(id: ID)
    | Dispatch(outcome: Outcome<ID>)
    | Done(id: ID)

  /** A dispatch goes to some least loaded agent, and finds none only when there is no room. */
  predicate Possible<ID>(s: Agents<ID>, o: Outcome<ID>) {
    match o
    case Sent(id) => LeastLoaded(s, id)
    case SendFailed(id) => LeastLoaded(s, id)
    case NoAgents => NoRoom(s)
  }

  predicate Enabled<ID>(s: Agents<ID>, op: Op<ID>) {
    op.Dispatch? ==> Possible(s, op.outcome)
  }

  function Placed<ID>(s: Agents<ID>, o: Outcome<ID>): Agents<ID>
    requires Possible(s, o)
  {
    if o.Sent? then s[o.agent := s[o.agent].(active := s[o.agent].active + 1)] else s
  }

  function Released<ID>(s: Agents<ID>, id: ID): Agents<ID> {
    if id in s && s[id].active > 0 then s[id := s[id].(active := s[id].active - 1)] else s
  }

  function Apply<ID>(s: Agents<ID>, op: Op<ID>): Agents<ID>
    requires Enabled(s, op)
  {
    match op
    case Register(id, capacity) => s[id := Load(0, capacity)]
    case Disconnect(id) => s - {id}
    case Dispatch(o) => Placed(s, o)
    case Done(id) => Released(s, id)
  }

  /** Jobs sent, jobs released, and jobs forgotten with the agent that ran them. */
  datatype Ledger = Ledger(sent: nat, released: nat, dropped: int)

  function Book<ID>(s: Agents<ID>, op: Op<ID>, l: Ledger): Ledger {
    match op
    case Register(id, _) => l.(dropped := l.dropped + if id in s then s[id].active else 0)
    case Disconnect(id) => l.(dropped := l.dropped + if id in s then s[id].active else 0)
    case Dispatch(o) => if o.Sent? then l.(sent := l.sent + 1) else l
    case Done(id) => if id in s && s[id].active > 0 then l.(released := l.released + 1) else l
  }

  predicate PossibleRun<ID>(s: Agents<ID>, ops: seq<Op<ID>>)
    decreases |ops|
  {
    ops == [] || (Enabled(s, ops[0]) && PossibleRun(Apply(s, ops[0]), ops[1..]))
  }

  function Exec<ID>(s: Agents<ID>, ops: seq<Op<ID>>): Agents<ID>
    requires PossibleRun(s, ops)
    decreases |ops|
  {
    if ops == [] then s else Exec(Apply(s, ops[0]), ops[1..])
  }

  function Books<ID>(s: Agents<ID>, ops: seq<Op<ID>>, l: Ledger): Ledger
    requires PossibleRun(s, ops)
    decreases |ops|
  {
    if ops == [] then l else Books(Apply(s, ops[0]), ops[1..], Book(s, ops[0], l))
  }

  // ---------------------------------------------------------------------------
  // Sums
  // ---------------------------------------------------------------------------

  ghost function Sum<ID>(m: map<ID, int>): int
    decreases m.Keys
  {
    if m == map[] then 0
    else
      var k :| k in m;
      assert (m - {k}).Keys < m.Keys;
      m[k] + Sum(m - {k})
  }

  /** Any element can be taken out of a sum first. */
  lemma {:induction false} SumWithout<ID>(m: map<ID, int>, x: ID)
    requires x in m
    ensures Sum(m) == m[x] + Sum(m - {x})
    decreases m.Keys
  {
    var k :| k in m && Sum(m) == m[k] + Sum(m - {k});
    if k != x {
      assert x in m - {k} && (m - {k}).Keys < m.Keys;
      SumWithout(m - {k}, x);
      assert k in m - {x} && (m - {x}).Keys < m.Keys;
      SumWithout(m - {x}, k);
      assert m - {k} - {x} == m - {x} - {k};
    }
  }

  lemma SumUpdate<ID>(m: map<ID, int>, x: ID, v: int)
    ensures Sum(m[x := v]) == Sum(m) - (if x in m then m[x] else 0) + v
  {
    SumWithout(m[x := v], x);
    assert m[x := v] - {x} == m - {x};
    if x in m {
      SumWithout(m, x);
    } else {
      assert m - {x} == m;
    }
  }

  /** A pointwise comparison carries over to the sums, strictly if it is strict somewhere. */
  lemma {:induction false} SumCompare<ID>(m: map<ID, int>, n: map<ID, int>)
    requires m.Keys == n.Keys && forall x :: x in m ==> m[x] <= n[x]
    ensures Sum(m) <= Sum(n)
    ensures Sum(m) == Sum(n) <==> m == n
    decreases m.Keys
  {
    if m != map[] {
      var k :| k in m;
      SumWithout(m, k);
      SumWithout(n, k);
      assert (m - {k}).Keys < m.Keys;
      SumCompare(m - {k}, n - {k});
      if m - {k} == n - {k} && m[k] == n[k] {
        assert m == (m - {k})[k := m[k]] && n == (n - {k})[k := n[k]];
      }
    } else {
      assert n == map[];
    }
  }

  function Actives<ID>(s: Agents<ID>): map<ID, int> {
    map id | id in s :: s[id].active
  }

  function Rooms<ID>(s: Agents<ID>): map<ID, int> {
    map id | id in s :: Room(s[id])
  }

  // ---------------------------------------------------------------------------
  // Conservation
  // ---------------------------------------------------------------------------

  /** Each count stays between zero and the capacity. */
  predicate Bounded<ID>(s: Agents<ID>) {
    forall id :: id in s ==> 0 <= s[id].active <= Room(s[id])
  }

  lemma StepConserves<ID>(s: Agents<ID>, op: Op<ID>, l: Ledger)
    requires Bounded(s) && Enabled(s, op) && Sum(Actives(s)) == l.sent - l.released - l.dropped
    ensures Bounded(Apply(s, op))
    ensures var k := Book(s, op, l); Sum(Actives(Apply(s, op))) == k.sent - k.released - k.dropped
  {
    var t := Apply(s, op);
    match op {
      case Register(id, capacity) =>
        assert Actives(t) == Actives(s)[id := 0];
        SumUpdate(Actives(s), id, 0);
      case Disconnect(id) =>
        assert Actives(t) == Actives(s) - {id};
        if id in s {
          SumWithout(Actives(s), id);
        } else {
          assert t == s;
        }
      case Dispatch(o) =>
        if o.Sent? {
          assert Actives(t) == Actives(s)[o.agent := t[o.agent].active];
          SumUpdate(Actives(s), o.agent, t[o.agent].active);
        }
      case Done(id) =>
        if id in s && s[id].active > 0 {
          assert Actives(t) == Actives(s)[id := t[id].active];
          SumUpdate(Actives(s), id, t[id].active);
        }
    }
  }

  lemma {:induction false} RunConserves<ID>(s: Agents<ID>, ops: seq<Op<ID>>, l: Ledger)
    requires Bounded(s) && PossibleRun(s, ops) && Sum(Actives(s)) == l.sent - l.released - l.dropped
    ensures Bounded(Exec(s, ops))
    ensures var k := Books(s, ops, l); Sum(Actives(Exec(s, ops))) == k.sent - k.released - k.dropped
    decreases |ops|
  {
    if ops != [] {
      StepConserves(s, ops[0], l);
      RunConserves(Apply(s, ops[0]), ops[1..], Book(s, ops[0], l));
    }
  }

  /** No agents are available exactly when the whole capacity is used up. */
  lemma NoRoomIffUsedUp<ID>(s: Agents<ID>)
    requires Bounded(s)
    ensures NoRoom(s) <==> Sum(Actives(s)) == Sum(Rooms(s))
  {
    SumCompare(Actives(s), Rooms(s));
    if Actives(s) == Rooms(s) {
      forall b | b in s
        ensures Full(s[b])
      {
        assert Actives(s)[b] == Rooms(s)[b];
      }
    }
  }

  // ---------------------------------------------------------------------------
  // What the operations said
  // ---------------------------------------------------------------------------

  /** The capacity an id registered last, if it was not disconnected since. */
  function Registered<ID(==)>(ops: seq<Op<ID>>, id: ID): Option<int> {
    if ops == [] then None
    else
      match ops[|ops| - 1]
      case Register(r, capacity) => if r == id then Some(capacity) else Registered(ops[..|ops| - 1], id)
      case Disconnect(r) => if r == id then None else Registered(ops[..|ops| - 1], id)
      case _ => Registered(ops[..|ops| - 1], id)
  }

  /** The jobs sent to an id since it registered last and not reported done, reports without a job aside. */
  function Held<ID(==)>(ops: seq<Op<ID>>, id: ID): nat {
    if ops == [] then 0
    else
      var before := Held(ops[..|ops| - 1], id);
      match ops[|ops| - 1]
      case Register(r, _) => if r == id then 0 else before
      case Disconnect(r) => if r == id then 0 else before
      case Dispatch(o) => if o == Sent(id) then before + 1 else before
      case Done(r) => if r == id && before > 0 then before - 1 else before
  }

  /** The same run with the last operation taken apart. */
  lemma {:induction false} RunSnoc<ID>(s: Agents<ID>, ops: seq<Op<ID>>, op: Op<ID>)
    requires PossibleRun(s, ops + [op])
    ensures PossibleRun(s, ops) && Enabled(Exec(s, ops), op)
    ensures Exec(s, ops + [op]) == Apply(Exec(s, ops), op)
    decreases |ops|
  {
    if ops == [] {
      AppendEmpty([op]);
      assert [op][1..] == [];
    } else {
      assert (ops + [op])[1..] == ops[1..] + [op];
      RunSnoc(Apply(s, ops[0]), ops[1..], op);
    }
  }

  /** An id is connected with this capacity and this many jobs. */
  predicate StandsAs<ID(==)>(s: Agents<ID>, id: ID, capacity: Option<int>, held: nat) {
    match capacity
    case None => id !in s
    case Some(c) => id in s && s[id].capacity == c && s[id].active == held
  }

  /** After any run an id is connected exactly if it has registered, with that capacity and the jobs it holds. */
  lemma {:induction false} ConnectedAsRegistered<ID>(ops: seq<Op<ID>>, id: ID)
    requires PossibleRun(map[], ops)
    ensures StandsAs(Exec(map[], ops), id, Registered(ops, id), Held(ops, id))
  {
    if ops != [] {
      var start, op := ops[..|ops| - 1], ops[|ops| - 1];
      SplitLast(ops);
      RunSnoc(map[], start, op);
      ConnectedAsRegistered(start, id);
      StepStands(Exec(map[], start), start, op, id);
    }
  }

  lemma StepStands<ID>(s: Agents<ID>, ops: seq<Op<ID>>, op: Op<ID>, id: ID)
    requires Enabled(s, op) && StandsAs(s, id, Registered(ops, id), Held(ops, id))
    ensures StandsAs(Apply(s, op), id, Registered(ops + [op], id), Held(ops + [op], id))
  {
    Snoc(ops, op);
  }

  /** The jobs the connected agents hold, and the room they registered. */
  function HeldBy<ID(==)>(s: Agents<ID>, ops: seq<Op<ID>>): map<ID, int> {
    map id | id in s :: Held(ops, id)
  }

  function RoomOf<ID(==)>(s: Agents<ID>, ops: seq<Op<ID>>): map<ID, int> {
    map id | id in s :: match Registered(ops, id) case None => 0 case Some(c) => if c > 0 then c else 0
  }

  lemma HeldAndRoom<ID>(ops: seq<Op<ID>>)
    requires PossibleRun(map[], ops)
    ensures var t := Exec(map[], ops);
            && Actives(t) == HeldBy(t, ops) && Rooms(t) == RoomOf(t, ops)
            && forall id :: id in t ==> Registered(ops, id).Some?
  {
    var t := Exec(map[], ops);
    forall id | id in t
      ensures StandsAs(t, id, Registered(ops, id), Held(ops, id))
    {
      ConnectedAsRegistered(ops, id);
    }
  }

  /** How many jobs were sent in a run. */
  function SentIn<ID>(ops: seq<Op<ID>>): nat
    decreases |ops|
  {
    if ops == [] then 0 else (if ops[0].Dispatch? && ops[0].outcome.Sent? then 1 else 0) + SentIn(ops[1..])
  }

  lemma {:induction false} SentIsCounted<ID>(s: Agents<ID>, ops: seq<Op<ID>>, l: Ledger)
    requires PossibleRun(s, ops)
    ensures Books(s, ops, l).sent == l.sent + SentIn(ops)
    decreases |ops|
  {
    if ops != [] {
      SentIsCounted(Apply(s, ops[0]), ops[1..], Book(s, ops[0], l));
    }
  }

  /**
   * Over every run of the registry each agent holds no fewer than no jobs and no more than the
   * capacity it registered, and every job sent is held, was released, or was dropped with its agent.
   */
  lemma Conservation<ID>(ops: seq<Op<ID>>)
    requires PossibleRun(map[], ops)
    ensures Bounded(Exec(map[], ops))
    ensures forall id :: id in Exec(map[], ops) ==>
              Registered(ops, id).Some? && Held(ops, id) <= (if Registered(ops, id).value > 0 then Registered(ops, id).value else 0)
    ensures var k := Books(map[], ops, Ledger(0, 0, 0));
            && k.sent == SentIn(ops)
            && Sum(Actives(Exec(map[], ops))) == Sum(HeldBy(Exec(map[], ops), ops)) == k.sent - k.released - k.dropped
  {
    var t := Exec(map[], ops);
    assert Actives<ID>(map[]) == map[];
    RunConserves(map[], ops, Ledger(0, 0, 0));
    SentIsCounted(map[], ops, Ledger(0, 0, 0));
    HeldAndRoom(ops);
    forall id | id in t
      ensures Held(ops, id) <= (if Registered(ops, id).value > 0 then Registered(ops, id).value else 0)
    {
      ConnectedAsRegistered(ops, id);
    }
  }

  /** After any run a dispatch finds no agents exactly when all the capacity registered is held by jobs. */
  lemma NoAgentsIffHeld<ID>(ops: seq<Op<ID>>)
    requires PossibleRun(map[], ops)
    ensures var t := Exec(map[], ops);
            Enabled(t, Dispatch(NoAgents)) <==> Sum(HeldBy(t, ops)) == Sum(RoomOf(t, ops))
  {
    Conservation(ops);
    HeldAndRoom(ops);
    NoRoomIffUsedUp(Exec(map[], ops));
  }

  // ---------------------------------------------------------------------------
  // Optimality
  // ---------------------------------------------------------------------------

  /** No agent runs more than one job more than an agent that has room. */
  predicate Balanced<ID>(s: Agents<ID>) {
    forall a, b :: a in s && b in s && !Full(s[b]) ==> s[a].active <= s[b].active + 1
  }

  predicate AllSent<ID>(ops: seq<Op<ID>>) {
    forall i :: 0 <= i < |ops| ==> ops[i].Dispatch? && ops[i].outcome.Sent?
  }

  predicate SameCapacities<ID>(s: Agents<ID>, t: Agents<ID>) {
    s.Keys == t.Keys && forall id :: id in s ==> s[id].capacity == t[id].capacity
  }

  lemma PlacementBalances<ID>(s: Agents<ID>, id: ID)
    requires Bounded(s) && Balanced(s) && LeastLoaded(s, id)
    ensures var t := Placed(s, Sent(id));
            Bounded(t) && Balanced(t) && SameCapacities(s, t) && Sum(Actives(t)) == Sum(Actives(s)) + 1
  {
    assert Actives(Placed(s, Sent(id))) == Actives(s)[id := s[id].active + 1];
    SumUpdate(Actives(s), id, s[id].active + 1);
  }

  lemma {:induction false} PlacementsBalance<ID>(s: Agents<ID>, ops: seq<Op<ID>>)
    requires Bounded(s) && Balanced(s) && PossibleRun(s, ops) && AllSent(ops)
    ensures var t := Exec(s, ops);
            Bounded(t) && Balanced(t) && SameCapacities(s, t) && Sum(Actives(t)) == Sum(Actives(s)) + |ops|
    decreases |ops|
  {
    if ops != [] {
      PlacementBalances(s, ops[0].outcome.agent);
      PlacementsBalance(Apply(s, ops[0]), ops[1..]);
    }
  }

  /** Agents that have just registered. */
  predicate Fresh<ID>(s: Agents<ID>) {
    forall id :: id in s ==> s[id].active == 0
  }

  /** A way to spread `k` jobs over the agents within their capacities. */
  ghost predicate Assignment<ID>(s: Agents<ID>, f: map<ID, int>, k: nat) {
    f.Keys == s.Keys && Sum(f) == k && forall id :: id in f ==> 0 <= f[id] <= Room(s[id])
  }

  /**
   * Greedy placement is optimal: after k placements on fresh agents no agent runs more jobs than
   * the busiest agent of any other assignment of k jobs.
   */
  lemma GreedyIsOptimal<ID>(s: Agents<ID>, ops: seq<Op<ID>>, f: map<ID, int>, a: ID)
    requires Fresh(s) && PossibleRun(s, ops) && AllSent(ops)
    requires Assignment(s, f, |ops|) && a in s
    ensures var t := Exec(s, ops);
            a in t && Balanced(t) && exists b :: b in f && t[a].active <= f[b]
  {
    assert Actives(s) == map id | id in s :: 0;
    SumZero(Actives(s));
    PlacementsBalance(s, ops);
    var t := Exec(s, ops);
    if forall b :: b in f ==> f[b] < t[a].active {
      forall b | b in f
        ensures f[b] <= Actives(t)[b]
      {
        assert !Full(t[b]) ==> t[a].active <= t[b].active + 1;
      }
      SumCompare(f, Actives(t));
      assert false;
    }
  }

  lemma {:induction false} SumZero<ID>(m: map<ID, int>)
    requires forall x :: x in m ==> m[x] == 0
    ensures Sum(m) == 0
    decreases m.Keys
  {
    if m != map[] {
      var k :| k in m;
      SumWithout(m, k);
      assert (m - {k}).Keys < m.Keys;
      SumZero(m - {k});
    }
  }

  // ---------------------------------------------------------------------------
  // Fewest jobs against most remaining capacity
  // ---------------------------------------------------------------------------

  /** No agent with room has more capacity left. */
  predicate MostRemaining<ID>(s: Agents<ID>, id: ID) {
    id in s && forall b :: b in s && !Full(s[b]) ==> s[b].capacity - s[b].active <= s[id].capacity - s[id].active
  }

  /** Whichever least loaded agent is chosen, none has more capacity left. */
  predicate MostRemainingChosen<ID>(s: Agents<ID>) {
    forall id :: id in s && LeastLoaded(s, id) ==> MostRemaining(s, id)
  }

  /** All agents that can take any job at all registered the same capacity. */
  predicate Uniform<ID>(s: Agents<ID>) {
    forall a, b :: a in s && b in s && s[a].capacity > 0 && s[b].capacity > 0 ==> s[a].capacity == s[b].capacity
  }

  /** No agent registers. */
  predicate Steady<ID>(ops: seq<Op<ID>>) {
    forall i :: 0 <= i < |ops| ==> !ops[i].Register?
  }

  lemma SteadyStep<ID>(s: Agents<ID>, op: Op<ID>)
    requires Bounded(s) && Uniform(s) && Enabled(s, op) && !op.Register?
    ensures Bounded(Apply(s, op)) && Uniform(Apply(s, op))
  {
  }

  lemma {:induction false} SteadyKeeps<ID>(s: Agents<ID>, ops: seq<Op<ID>>)
    requires Bounded(s) && Uniform(s) && PossibleRun(s, ops) && Steady(ops)
    ensures Bounded(Exec(s, ops)) && Uniform(Exec(s, ops))
    decreases |ops|
  {
    if ops != [] {
      SteadyStep(s, ops[0]);
      SteadyKeeps(Apply(s, ops[0]), ops[1..]);
    }
  }

  /**
   * Over all runs from agents just registered, until another registers, the agent with the fewest
   * jobs is one with the most remaining capacity, exactly if their capacities are the same.
   */
  lemma LeastLoadedIsMostRemainingIff<ID(!new)>(s: Agents<ID>)
    requires Fresh(s)
    ensures Uniform(s) <==>
            forall ops :: PossibleRun(s, ops) && Steady(ops) ==> MostRemainingChosen(Exec(s, ops))
  {
    if Uniform(s) {
      forall ops | PossibleRun(s, ops) && Steady(ops)
        ensures MostRemainingChosen(Exec(s, ops))
      {
        SteadyKeeps(s, ops);
      }
    } else {
      var a, b :| a in s && b in s && 0 < s[a].capacity < s[b].capacity;
      var none: seq<Op<ID>> := [];
      assert PossibleRun(s, none) && Steady(none) && Exec(s, none) == s && LeastLoaded(s, a) && !MostRemaining(s, a);
    }
  }

  /** An agent with seven of its eight slots left loses to an idle one that has two. */
  lemma FewestJobsLeastRoom()
    ensures var s := map[0 := Load(1, 8), 1 := Load(0, 2)];
            Bounded(s) && LeastLoaded(s, 1) && !MostRemaining(s, 1)
  {
    assert 0 in map[0 := Load(1, 8), 1 := Load(0, 2)];
  }
}
