/** The log table, read in (timestamp, id) order, and the stream that follows it with a cursor. */
module Logs {
  import opened Messages

  datatype LogChunk = LogChunk(jobID: string, runID: string, timestamp: int, line: string, stderr: bool)

  // ---------------------------------------------------------------------------
  // The table
  // ---------------------------------------------------------------------------

  /** The rows of a run and job, in the order they were appended. */
  function Matching(rows: seq<LogChunk>, runID: string, jobID: string): seq<LogChunk> {
    if rows == [] then []
    else
      var c := rows[|rows| - 1];
      Matching(rows[..|rows| - 1], runID, jobID) + if c.runID == runID && c.jobID == jobID then [c] else []
  }

  /** Puts the newest row behind all rows that are not later than it. */
  function Insert(s: seq<LogChunk>, c: LogChunk): (r: seq<LogChunk>)
    ensures |r| == |s| + 1
  {
    if s == [] || s[|s| - 1].timestamp <= c.timestamp then s + [c]
    else Insert(s[..|s| - 1], c) + [s[|s| - 1]]
  }

  /** `ORDER BY timestamp, id`, the ids growing in the order of the appends. */
  function Ordered(rows: seq<LogChunk>): (r: seq<LogChunk>)
    ensures |r| == |rows|
  {
    if rows == [] then [] else Insert(Ordered(rows[..|rows| - 1]), rows[|rows| - 1])
  }

  class LogTable {
    var rows: seq<LogChunk>

    method AppendLog(c: LogChunk)
      modifies this
      ensures rows == old(rows) + [c]
    {
      rows := rows + [c];
    }

    method GetLogs(runID: string, jobID: string) returns (chunks: seq<LogChunk>)
      ensures chunks == Ordered(Matching(rows, runID, jobID))
    {
      chunks := [];
      for i := 0 to |rows|
        invariant chunks == Ordered(Matching(rows[..i], runID, jobID))
      {
        var c := rows[i];
        assert rows[..i + 1][..i] == rows[..i];
        if c.runID == runID && c.jobID == jobID {
          ghost var m := Matching(rows[..i], runID, jobID);
          assert (m + [c])[..|m|] == m;
          chunks := Insert(chunks, c);
        } else {
          assert Matching(rows[..i + 1], runID, jobID) == Matching(rows[..i], runID, jobID);
        }
      }
      assert rows[..|rows|] == rows;
    }
  }

  // ---------------------------------------------------------------------------
  // The stream
  // ---------------------------------------------------------------------------

  /** What is new behind the cursor. */
  function Unseen(chunks: seq<LogChunk>, seen: nat): seq<LogChunk> {
    if seen <= |chunks| then chunks[seen..] else []
  }

  /** The first failing send was the one behind `k` chunks, which is what has been sent. */
  predicate StopsAfter(f: Follow, runID: string, sendOk: nat -> bool, k: nat, sent: seq<LogChunk>) {
    && k < |Unseen(Ordered(Mine(f.rows, runID)), f.seen)| && !sendOk(f.seen + k)
    && (forall i :: f.seen <= i < f.seen + k ==> sendOk(i))
    && sent == BrokenTick(f, k, runID)
  }

  /** One StreamLogs call: its cursor and what it has sent. */
  class LogStream {
    const table: LogTable
    const runID: string
    var seen: nat
    var sent: seq<LogChunk>

    constructor (table: LogTable, runID: string)
      ensures this.table == table && this.runID == runID && seen == 0 && sent == []
    {
      this.table, this.runID, seen, sent := table, runID, 0, [];
    }

    function Now(): Follow
      reads this, table
    {
      Follow(table.rows, seen, sent)
    }

    /**
     * One tick: reads the rows of the run with an empty job id and sends those behind the cursor, up
     * to the first send that fails.
     */
    method Tick(sendOk: nat -> bool) returns (ok: bool)
      modifies this
      ensures ok ==> Now() == Apply(old(Now()), Op.Tick, runID) && seen == |Ordered(Matching(table.rows, runID, ""))|
      ensures ok ==> forall i :: old(seen) <= i < seen ==> sendOk(i)
      ensures !ok ==> seen == old(seen) && exists k: nat :: StopsAfter(old(Now()), runID, sendOk, k, sent)
    {
      ghost var f := Now();
      var chunks := table.GetLogs(runID, "");
      ghost var unseen := Unseen(chunks, seen);
      var i := seen;
      while i < |chunks|
        invariant seen == f.seen <= i && i - seen <= |unseen| && (i < |chunks| ==> seen + |unseen| == |chunks|)
        invariant sent == f.sent + unseen[..i - seen]
        invariant forall j :: seen <= j < i ==> sendOk(j)
        invariant i >= |chunks| ==> i - seen == |unseen|
      {
        if !sendOk(i) {
          Stopped(f, runID, sendOk, i - seen, sent, chunks);
          return false;
        }
        SentNext(f.sent, chunks, seen, i);
        sent := sent + [chunks[i]];
        i := i + 1;
      }
      SentAll(f, runID, chunks, i - seen);
      seen := |chunks|;
      return true;
    }
  }

  lemma SentNext(before: seq<LogChunk>, chunks: seq<LogChunk>, seen: nat, i: nat)
    requires seen <= i < |chunks|
    ensures before + Unseen(chunks, seen)[..i - seen] + [chunks[i]] == before + Unseen(chunks, seen)[..i + 1 - seen]
  {
    TakeNext(chunks[seen..], i - seen);
    Associative(before, chunks[seen..][..i - seen], [chunks[i]]);
  }

  lemma SentAll(f: Follow, runID: string, chunks: seq<LogChunk>, k: nat)
    requires chunks == Ordered(Mine(f.rows, runID)) && k == |Unseen(chunks, f.seen)|
    ensures Apply(f, Op.Tick, runID) == Follow(f.rows, |chunks|, f.sent + Unseen(chunks, f.seen)[..k])
  {
    TakeAll(Unseen(chunks, f.seen));
  }

  lemma Stopped(f: Follow, runID: string, sendOk: nat -> bool, k: nat, sent: seq<LogChunk>, chunks: seq<LogChunk>)
    requires chunks == Ordered(Mine(f.rows, runID)) && k < |Unseen(chunks, f.seen)|
    requires !sendOk(f.seen + k) && forall i :: f.seen <= i < f.seen + k ==> sendOk(i)
    requires sent == f.sent + Unseen(chunks, f.seen)[..k]
    ensures StopsAfter(f, runID, sendOk, k, sent)
  {
  }

  // ---------------------------------------------------------------------------
  // Runs of appends and ticks
  // ---------------------------------------------------------------------------

  /** The whole table, the cursor of a stream, and what it has sent. */
  datatype Follow = Follow(rows: seq<LogChunk>, seen: nat, sent: seq<LogChunk>)

  /** An append of any run and job, or a tick of the stream that sends. */
  datatype Op = Append(c: LogChunk) | Tick

  /** What the stream of a run matches. */
  function Mine(rows: seq<LogChunk>, runID: string): seq<LogChunk> {
    Matching(rows, runID, "")
  }

  function Apply(f: Follow, op: Op, runID: string): Follow {
    match op
    case Append(c) => f.(rows := f.rows + [c])
    case Tick =>
      var chunks := Ordered(Mine(f.rows, runID));
      Follow(f.rows, |chunks|, f.sent + Unseen(chunks, f.seen))
  }

  function Exec(f: Follow, ops: seq<Op>, runID: string): Follow
    decreases |ops|
  {
    if ops == [] then f else Exec(Apply(f, ops[0], runID), ops[1..], runID)
  }

  /** The timestamps never go down. */
  predicate InTime(rows: seq<LogChunk>) {
    forall i, j :: 0 <= i < j < |rows| ==> rows[i].timestamp <= rows[j].timestamp
  }

  lemma {:induction false} InTimeIsOrdered(rows: seq<LogChunk>)
    requires InTime(rows)
    ensures Ordered(rows) == rows
  {
    if rows != [] {
      InTimeIsOrdered(rows[..|rows| - 1]);
      SplitLast(rows);
    }
  }

  lemma MineGrows(rows: seq<LogChunk>, c: LogChunk, runID: string)
    ensures Mine(rows, runID) <= Mine(rows + [c], runID)
  {
    Snoc(rows, c);
  }

  lemma PrefixInTime(a: seq<LogChunk>, b: seq<LogChunk>)
    requires InTime(b) && a <= b
    ensures InTime(a)
  {
  }

  /** What the stream matches is only ever added to. */
  lemma {:induction false} MineOnlyGrows(f: Follow, ops: seq<Op>, runID: string)
    ensures Mine(f.rows, runID) <= Mine(Exec(f, ops, runID).rows, runID)
    decreases |ops|
  {
    if ops != [] {
      if ops[0].Append? {
        MineGrows(f.rows, ops[0].c, runID);
      }
      MineOnlyGrows(Apply(f, ops[0], runID), ops[1..], runID);
    }
  }

  /** Sent so far: the matching appends up to the cursor. */
  predicate UpToCursor(f: Follow, runID: string) {
    f.seen <= |Mine(f.rows, runID)| && f.sent == Mine(f.rows, runID)[..f.seen]
  }

  lemma TickReachesEnd(f: Follow, runID: string)
    requires UpToCursor(f, runID) && InTime(Mine(f.rows, runID))
    ensures UpToCursor(Apply(f, Tick, runID), runID) && Apply(f, Tick, runID).sent == Mine(f.rows, runID)
  {
    var mine := Mine(f.rows, runID);
    InTimeIsOrdered(mine);
    Cut(mine, f.seen);
    TakeAll(mine);
  }

  lemma AppendKeepsCursor(f: Follow, c: LogChunk, runID: string)
    requires UpToCursor(f, runID)
    ensures UpToCursor(Apply(f, Append(c), runID), runID)
  {
    MineGrows(f.rows, c, runID);
  }

  /** What has been sent if the send behind the next `k` chunks fails and ends the stream. */
  function BrokenTick(f: Follow, k: nat, runID: string): seq<LogChunk>
    requires k <= |Unseen(Ordered(Mine(f.rows, runID)), f.seen)|
  {
    f.sent + Unseen(Ordered(Mine(f.rows, runID)), f.seen)[..k]
  }

  lemma BrokenTickIsPrefix(f: Follow, k: nat, runID: string)
    requires UpToCursor(f, runID) && InTime(Mine(f.rows, runID)) && k <= |Unseen(Ordered(Mine(f.rows, runID)), f.seen)|
    ensures f.seen + k <= |Mine(f.rows, runID)| && BrokenTick(f, k, runID) == Mine(f.rows, runID)[..f.seen + k]
  {
    InTimeIsOrdered(Mine(f.rows, runID));
    TakeMore(Mine(f.rows, runID), f.seen, k);
  }

  lemma TakeMore<T>(s: seq<T>, i: nat, k: nat)
    requires i + k <= |s|
    ensures s[..i] + s[i..][..k] == s[..i + k]
  {
  }

  /** Wherever a failing send ends the next tick, what was sent is the appends so far, in order. */
  predicate BreaksInOrder(f: Follow, runID: string) {
    forall k: nat :: k <= |Unseen(Ordered(Mine(f.rows, runID)), f.seen)| ==>
      f.seen + k <= |Mine(f.rows, runID)| && BrokenTick(f, k, runID) == Mine(f.rows, runID)[..f.seen + k]
  }

  lemma BrokenTicks(f: Follow, runID: string)
    requires UpToCursor(f, runID) && InTime(Mine(f.rows, runID))
    ensures BreaksInOrder(f, runID)
  {
    forall k: nat | k <= |Unseen(Ordered(Mine(f.rows, runID)), f.seen)|
      ensures f.seen + k <= |Mine(f.rows, runID)| && BrokenTick(f, k, runID) == Mine(f.rows, runID)[..f.seen + k]
    {
      BrokenTickIsPrefix(f, k, runID);
    }
  }

  /**
   * Exactly-once streaming: if the timestamps of the matching appends never go down, then over any
   * interleaving of appends and ticks what was sent is the matching appends in their order, up to
   * the cursor, without gap or repeat, and a last tick brings the cursor to their end. A stream that
   * a failing send ends within its next tick has sent a longer part of the same appends.
   */
  lemma ExactlyOnce(ops: seq<Op>, runID: string)
    requires InTime(Mine(Exec(Follow([], 0, []), ops, runID).rows, runID))
    ensures var f := Exec(Follow([], 0, []), ops, runID);
            && f.seen <= |Mine(f.rows, runID)| && f.sent == Mine(f.rows, runID)[..f.seen]
            && (ops != [] && ops[|ops| - 1] == Tick ==> f.sent == Mine(f.rows, runID))
            && BreaksInOrder(f, runID)
  {
    FollowsToEnd(Follow([], 0, []), ops, runID);
    BrokenTicks(Exec(Follow([], 0, []), ops, runID), runID);
  }

  lemma {:induction false} FollowsToEnd(f: Follow, ops: seq<Op>, runID: string)
    requires UpToCursor(f, runID) && InTime(Mine(Exec(f, ops, runID).rows, runID))
    ensures UpToCursor(Exec(f, ops, runID), runID)
    ensures ops != [] && ops[|ops| - 1] == Tick ==> Exec(f, ops, runID).sent == Mine(Exec(f, ops, runID).rows, runID)
    decreases |ops|
  {
    if ops != [] {
      MineOnlyGrows(f, ops, runID);
      PrefixInTime(Mine(f.rows, runID), Mine(Exec(f, ops, runID).rows, runID));
      match ops[0] {
        case Tick => TickReachesEnd(f, runID);
        case Append(c) => AppendKeepsCursor(f, c, runID);
      }
      FollowsToEnd(Apply(f, ops[0], runID), ops[1..], runID);
    }
  }

  // ---------------------------------------------------------------------------
  // Whose rows are streamed
  // ---------------------------------------------------------------------------

  lemma {:induction false} MineHasNoJob(rows: seq<LogChunk>, runID: string)
    ensures forall c :: c in Mine(rows, runID) ==> c.runID == runID && c.jobID == "" && c in rows
  {
    if rows != [] {
      MineHasNoJob(rows[..|rows| - 1], runID);
      SplitLast(rows);
    }
  }

  lemma OrderedHolds(rows: seq<LogChunk>)
    ensures forall c :: c in Ordered(rows) <==> c in rows
  {
    OrderedSorts(rows);
    assert forall c :: c in Ordered(rows) <==> c in multiset(Ordered(rows));
  }

  predicate SentHasNoJob(f: Follow, runID: string) {
    forall c :: c in f.sent ==> c.runID == runID && c.jobID == "" && c in f.rows
  }

  /** Whatever the timestamps, only rows of the run that belong to no job are ever sent. */
  lemma {:induction false} OnlyJoblessSent(f: Follow, ops: seq<Op>, runID: string)
    requires SentHasNoJob(f, runID)
    ensures SentHasNoJob(Exec(f, ops, runID), runID)
    decreases |ops|
  {
    if ops != [] {
      OrderedHolds(Mine(f.rows, runID));
      MineHasNoJob(f.rows, runID);
      OnlyJoblessSent(Apply(f, ops[0], runID), ops[1..], runID);
    }
  }

  /** The log of a run: its rows whatever their job, in the order they were appended. */
  function OfRun(rows: seq<LogChunk>, runID: string): seq<LogChunk> {
    if rows == [] then []
    else OfRun(rows[..|rows| - 1], runID) + if rows[|rows| - 1].runID == runID then [rows[|rows| - 1]] else []
  }

  /** No row of the run belongs to a job. */
  predicate NoJobs(rows: seq<LogChunk>, runID: string) {
    forall i :: 0 <= i < |rows| && rows[i].runID == runID ==> rows[i].jobID == ""
  }

  lemma {:induction false} MineIsAllIff(rows: seq<LogChunk>, runID: string)
    ensures |Mine(rows, runID)| <= |OfRun(rows, runID)|
    ensures |Mine(rows, runID)| == |OfRun(rows, runID)| <==> NoJobs(rows, runID)
    ensures NoJobs(rows, runID) ==> Mine(rows, runID) == OfRun(rows, runID)
  {
    if rows != [] {
      MineIsAllIff(rows[..|rows| - 1], runID);
    }
  }

  /** A tick leaves nothing of the run's log unsent exactly if no row of the run belongs to a job. */
  lemma RunLogStreamedIff(ops: seq<Op>, runID: string)
    requires InTime(Mine(Exec(Follow([], 0, []), ops, runID).rows, runID))
    requires ops != [] && ops[|ops| - 1] == Tick
    ensures var f := Exec(Follow([], 0, []), ops, runID);
            && SentHasNoJob(f, runID)
            && (f.sent == OfRun(f.rows, runID) <==> NoJobs(f.rows, runID))
  {
    var start := Follow([], 0, []);
    FollowsToEnd(start, ops, runID);
    OnlyJoblessSent(start, ops, runID);
    MineIsAllIff(Exec(start, ops, runID).rows, runID);
  }

  // ---------------------------------------------------------------------------
  // When a tick is exact
  // ---------------------------------------------------------------------------

  predicate AllUpTo(s: seq<LogChunk>, t: int) {
    forall i :: 0 <= i < |s| ==> s[i].timestamp <= t
  }

  lemma {:induction false} InsertUpTo(s: seq<LogChunk>, c: LogChunk, t: int)
    requires AllUpTo(s, t) && c.timestamp <= t
    ensures AllUpTo(Insert(s, c), t)
  {
    if s != [] && s[|s| - 1].timestamp > c.timestamp {
      InsertUpTo(s[..|s| - 1], c, t);
    }
  }

  lemma InTimeSnoc(s: seq<LogChunk>, c: LogChunk)
    requires InTime(s) && AllUpTo(s, c.timestamp)
    ensures InTime(s + [c])
  {
  }

  lemma {:induction false} InsertSorts(s: seq<LogChunk>, c: LogChunk)
    requires InTime(s)
    ensures InTime(Insert(s, c))
  {
    if s != [] {
      var start, last := s[..|s| - 1], s[|s| - 1];
      if last.timestamp > c.timestamp {
        InsertSorts(start, c);
        InsertUpTo(start, c, last.timestamp);
        InTimeSnoc(Insert(start, c), last);
      } else {
        InTimeSnoc(s, c);
      }
    }
  }

  lemma {:induction false} InsertKeeps(s: seq<LogChunk>, c: LogChunk)
    ensures multiset(Insert(s, c)) == multiset(s) + multiset{c}
  {
    if s != [] && s[|s| - 1].timestamp > c.timestamp {
      InsertKeeps(s[..|s| - 1], c);
      SplitLast(s);
    }
  }

  /** The ordered log holds the rows, in time order. */
  lemma {:induction false} OrderedSorts(rows: seq<LogChunk>)
    ensures InTime(Ordered(rows)) && multiset(Ordered(rows)) == multiset(rows)
  {
    if rows != [] {
      OrderedSorts(rows[..|rows| - 1]);
      InsertSorts(Ordered(rows[..|rows| - 1]), rows[|rows| - 1]);
      InsertKeeps(Ordered(rows[..|rows| - 1]), rows[|rows| - 1]);
      SplitLast(rows);
    }
  }

  // ---------------------------------------------------------------------------
  // What a query returns
  // ---------------------------------------------------------------------------

  /** A row is selected exactly if both ids are the ones asked for, and selected rows keep their order. */
  lemma {:induction false} MatchingSelects(a: seq<LogChunk>, b: seq<LogChunk>, c: LogChunk, runID: string, jobID: string)
    ensures Matching(a + b, runID, jobID) == Matching(a, runID, jobID) + Matching(b, runID, jobID)
    ensures Matching([c], runID, jobID) == if c.runID == runID && c.jobID == jobID then [c] else []
  {
    assert [c][..0] == [];
    if b == [] {
      AppendEmpty(a);
      AppendEmpty(Matching(a, runID, jobID));
    } else {
      var last := b[|b| - 1];
      MatchingSelects(a, b[..|b| - 1], c, runID, jobID);
      LastOfAppend(a, b);
      AppendEmpty(Matching(a, runID, jobID) + Matching(b[..|b| - 1], runID, jobID));
      Associative(Matching(a, runID, jobID), Matching(b[..|b| - 1], runID, jobID), [last]);
    }
  }

  /** The rows of one instant. */
  function At(rows: seq<LogChunk>, t: int): seq<LogChunk> {
    if rows == [] then []
    else At(rows[..|rows| - 1], t) + if rows[|rows| - 1].timestamp == t then [rows[|rows| - 1]] else []
  }

  lemma AtSnoc(rows: seq<LogChunk>, c: LogChunk, t: int)
    ensures At(rows + [c], t) == At(rows, t) + if c.timestamp == t then [c] else []
  {
    Snoc(rows, c);
  }

  lemma {:induction false} InsertStable(s: seq<LogChunk>, c: LogChunk, t: int)
    ensures At(Insert(s, c), t) == At(s, t) + if c.timestamp == t then [c] else []
  {
    if s == [] || s[|s| - 1].timestamp <= c.timestamp {
      AtSnoc(s, c, t);
    } else {
      var start, last := s[..|s| - 1], s[|s| - 1];
      InsertStable(start, c, t);
      AtSnoc(Insert(start, c), last, t);
      SplitLast(s);
      AtSnoc(start, last, t);
      AppendEmpty(At(start, t));
      AppendEmpty(At(start, t) + [c]);
    }
  }

  /** Rows of the same instant come in the order they were appended. */
  lemma {:induction false} OrderedIsStable(rows: seq<LogChunk>, t: int)
    ensures At(Ordered(rows), t) == At(rows, t)
  {
    if rows != [] {
      var start, c := rows[..|rows| - 1], rows[|rows| - 1];
      OrderedIsStable(start, t);
      InsertStable(Ordered(start), c, t);
      SplitLast(rows);
      AtSnoc(start, c, t);
    }
  }

  /** No added row is earlier than a row the last tick has seen. */
  predicate NoneEarlier(seen: seq<LogChunk>, added: seq<LogChunk>) {
    forall i, j :: 0 <= i < |seen| && 0 <= j < |added| ==> seen[i].timestamp <= added[j].timestamp
  }

  lemma {:induction false} InsertBehind(v: seq<LogChunk>, x: seq<LogChunk>, c: LogChunk)
    requires forall i :: 0 <= i < |v| ==> v[i].timestamp <= c.timestamp
    ensures Insert(v + x, c) == v + Insert(x, c)
  {
    var s := v + x;
    if x == [] {
      assert s == v;
    } else if x[|x| - 1].timestamp > c.timestamp {
      assert s[..|s| - 1] == v + x[..|x| - 1];
      InsertBehind(v, x[..|x| - 1], c);
    }
  }

  lemma {:induction false} OrderedBehind(rows: seq<LogChunk>, added: seq<LogChunk>)
    requires NoneEarlier(rows, added)
    ensures Ordered(rows + added) == Ordered(rows) + Ordered(added)
  {
    if added == [] {
      assert rows + added == rows;
    } else {
      var start, c := added[..|added| - 1], added[|added| - 1];
      OrderedBehind(rows, start);
      assert (rows + added)[..|rows + added| - 1] == rows + start;
      OrderedSorts(rows);
      forall i | 0 <= i < |Ordered(rows)|
        ensures Ordered(rows)[i].timestamp <= c.timestamp
      {
        assert Ordered(rows)[i] in multiset(rows);
      }
      InsertBehind(Ordered(rows), Ordered(start), c);
    }
  }

  /**
   * After a tick has sent the whole ordered log, the next tick again leaves exactly the ordered log
   * sent if and only if no row appended in between is earlier than one already sent.
   */
  lemma TickExactIff(rows: seq<LogChunk>, added: seq<LogChunk>)
    ensures Ordered(rows) + Unseen(Ordered(rows + added), |rows|) == Ordered(rows + added) <==> NoneEarlier(rows, added)
  {
    var w := Ordered(rows + added);
    if NoneEarlier(rows, added) {
      OrderedBehind(rows, added);
    } else if Ordered(rows) + w[|rows|..] == w {
      var i, j :| 0 <= i < |rows| && 0 <= j < |added| && rows[i].timestamp > added[j].timestamp;
      AddedStandBehind(rows, added, i, j);
    }
  }

  /** If the old view is a prefix of the new one, what was added stands behind it, hence is not earlier. */
  lemma AddedStandBehind(rows: seq<LogChunk>, added: seq<LogChunk>, i: nat, j: nat)
    requires i < |rows| && j < |added|
    requires Ordered(rows) + Ordered(rows + added)[|rows|..] == Ordered(rows + added)
    ensures rows[i].timestamp <= added[j].timestamp
  {
    var v, rest := Ordered(rows), Ordered(rows + added)[|rows|..];
    OrderedKeeps(rows);
    OrderedKeeps(rows + added);
    SameRest(v, rest, rows, added);
    var k := IndexIn(v, rows, i);
    var m := IndexIn(rest, added, j);
    OrderedSorts(rows + added);
    InTimeAcross(v, rest, k, m);
  }

  lemma OrderedKeeps(rows: seq<LogChunk>)
    ensures multiset(Ordered(rows)) == multiset(rows)
  {
    OrderedSorts(rows);
  }

  /** Where a list with the same elements has one of them. */
  lemma IndexIn<T>(s: seq<T>, t: seq<T>, i: nat) returns (k: nat)
    requires multiset(s) == multiset(t) && i < |t|
    ensures k < |s| && s[k] == t[i]
  {
    assert t[i] in multiset(t);
    k :| 0 <= k < |s| && s[k] == t[i];
  }

  lemma InTimeAcross(v: seq<LogChunk>, rest: seq<LogChunk>, k: nat, m: nat)
    requires InTime(v + rest) && k < |v| && m < |rest|
    ensures v[k].timestamp <= rest[m].timestamp
  {
    assert (v + rest)[k] == v[k] && (v + rest)[|v| + m] == rest[m];
  }

  lemma SameRest(v: seq<LogChunk>, rest: seq<LogChunk>, rows: seq<LogChunk>, added: seq<LogChunk>)
    requires multiset(v) == multiset(rows) && multiset(v + rest) == multiset(rows + added)
    ensures multiset(rest) == multiset(added)
  {
    calc {
      multiset(rest);
      multiset(v + rest) - multiset(v);
      multiset(rows + added) - multiset(rows);
      multiset(added);
    }
  }
}
