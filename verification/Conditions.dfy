/** Run conditions: the printer of the Go SDK, the parser of the scheduler, and the glob. */
module Conditions {
  import opened Messages
  import opened Text

  datatype RunContext = RunContext(branch: string, tag: string, event: string)

  /** The white space `strings.TrimSpace` removes. */
  function IsSpace(c: char): bool {
    || '\t' <= c <= '\r'
    || c in {' ', '\U{85}', '\U{a0}', '\U{1680}', '\U{2028}', '\U{2029}', '\U{202f}', '\U{205f}', '\U{3000}'}
    || '\U{2000}' <= c <= '\U{200a}'
  }

  function TrimSpace(s: string): string {
    Trim(s, IsSpace)
  }

  const SEPARATOR := " == "

  predicate EvalCondition(cond: string, rc: RunContext) {
    match Find(cond, SEPARATOR)
    case None => false
    case Some(i) =>
      EvalKey(TrimSpace(cond[..i]), TrimSpace(cond[i + |SEPARATOR|..]), rc)
  }

  /** The switch over the condition's key. */
  predicate EvalKey(key: string, val: string, rc: RunContext) {
    if key == "branch" then rc.branch == val
    else if key == "tag" then MatchGlob(val, rc.tag)
    else if key == "event" then rc.event == val
    else false
  }

  predicate EvalConditions(conditions: seq<string>, rc: RunContext) {
    forall cond :: cond in conditions ==> EvalCondition(cond, rc)
  }

  predicate MatchGlob(pattern: string, s: string) {
    if pattern == "*" then true
    else if HasSuffix(pattern, "*") then pattern[..|pattern| - 1] <= s
    else if "*" <= pattern then HasSuffix(s, pattern[1..])
    else pattern == s
  }

  function OnBranch(name: string): string { "branch == " + name }

  function OnTag(pattern: string): string { "tag == " + pattern }

  function OnEvent(event: string): string { "event == " + event }

  // ---------------------------------------------------------------------------
  // Printer against parser
  // ---------------------------------------------------------------------------

  /** The parser splits a printed condition after its key, whatever the value holds. */
  lemma SplitsAfterKey(key: string, v: string)
    requires Tight(key, IsSpace) && ' ' !in key
    ensures var cond := key + SEPARATOR + v;
            && Find(cond, SEPARATOR) == Some(|key|)
            && TrimSpace(cond[..|key|]) == key
            && cond[|key| + |SEPARATOR|..] == v
  {
    var cond := key + SEPARATOR + v;
    assert OccursAt(cond, SEPARATOR, |key|);
    forall k: nat | k < |key|
      ensures !OccursAt(cond, SEPARATOR, k)
    {
      assert cond[k] == key[k] && key[k] in key;
    }
    TrimTight(key, IsSpace);
    assert cond[..|key|] == key;
  }

  /** What the three printed conditions mean, for every value. */
  lemma PrintedConditionMeans(v: string, rc: RunContext)
    ensures EvalCondition(OnBranch(v), rc) <==> rc.branch == TrimSpace(v)
    ensures EvalCondition(OnTag(v), rc) <==> MatchGlob(TrimSpace(v), rc.tag)
    ensures EvalCondition(OnEvent(v), rc) <==> rc.event == TrimSpace(v)
  {
    assert OnBranch(v) == "branch" + SEPARATOR + v && OnTag(v) == "tag" + SEPARATOR + v;
    assert OnEvent(v) == "event" + SEPARATOR + v;
    EvalPrinted("branch", v, rc);
    EvalPrinted("tag", v, rc);
    EvalPrinted("event", v, rc);
    assert |"branch"| == 6 && |"tag"| == 3 && |"event"| == 5;
  }

  lemma EvalPrinted(key: string, v: string, rc: RunContext)
    requires Tight(key, IsSpace) && ' ' !in key
    ensures EvalCondition(key + SEPARATOR + v, rc) <==> EvalKey(key, TrimSpace(v), rc)
  {
    SplitsAfterKey(key, v);
  }

  /** Printer and parser agree on a name in every context exactly when trimming leaves it alone. */
  lemma NamesAgreeIffTight(name: string)
    ensures (forall rc :: EvalCondition(OnBranch(name), rc) <==> rc.branch == name) <==> Tight(name, IsSpace)
    ensures (forall rc :: EvalCondition(OnEvent(name), rc) <==> rc.event == name) <==> Tight(name, IsSpace)
  {
    TrimTight(name, IsSpace);
    forall rc { PrintedConditionMeans(name, rc); }
    var here := RunContext(name, "", name);
    assert EvalCondition(OnBranch(name), here) <==> Tight(name, IsSpace);
    assert EvalCondition(OnEvent(name), here) <==> Tight(name, IsSpace);
  }

  // ---------------------------------------------------------------------------
  // Any condition
  // ---------------------------------------------------------------------------

  /** A condition without the separator never passes. */
  lemma MalformedFails(cond: string, rc: RunContext)
    requires forall k :: !OccursAt(cond, " == ", k)
    ensures !EvalCondition(cond, rc)
  {
  }

  /** What a condition means whose first separator stands behind `key`; white space around both parts is ignored. */
  lemma ConditionMeans(key: string, val: string, rc: RunContext)
    requires forall k: nat :: k < |key| ==> !OccursAt(key + " == " + val, " == ", k)
    ensures EvalCondition(key + " == " + val, rc) <==>
            || (TrimSpace(key) == "branch" && rc.branch == TrimSpace(val))
            || (TrimSpace(key) == "tag" && MatchGlob(TrimSpace(val), rc.tag))
            || (TrimSpace(key) == "event" && rc.event == TrimSpace(val))
  {
    var cond := key + " == " + val;
    assert OccursAt(cond, " == ", |key|);
    assert cond[..|key|] == key && cond[|key| + 4..] == val;
    assert "branch" != "tag" && "tag" != "event" && "branch" != "event";
  }

  /** Blanks, tabs and line ends around a visible name are white space to the parser; visible characters are not. */
  lemma PaddedName(before: string, name: string, after: string, rc: RunContext)
    requires forall c :: c in before + after ==> c == ' ' || c == '\t' || c == '\r' || c == '\n'
    requires forall c :: c in name ==> '!' <= c <= '~'
    ensures EvalCondition("branch == " + (before + name + after), rc) <==> rc.branch == name
    ensures EvalCondition("tag == " + (before + name + after), rc) <==> MatchGlob(name, rc.tag)
    ensures EvalCondition("event == " + (before + name + after), rc) <==> rc.event == name
  {
    assert forall c :: c in before ==> c in before + after;
    assert forall c :: c in after ==> c in before + after;
    assert name != [] ==> name[0] in name && name[|name| - 1] in name;
    TrimPadded(before, name, after, IsSpace);
    PrintedConditionMeans(before + name + after, rc);
  }

  // ---------------------------------------------------------------------------
  // Lists of conditions
  // ---------------------------------------------------------------------------

  /** A list of conditions is a conjunction. */
  lemma ConditionsCompose(a: seq<string>, b: seq<string>, cond: string, rc: RunContext)
    ensures EvalConditions(a + b, rc) <==> EvalConditions(a, rc) && EvalConditions(b, rc)
    ensures EvalConditions([], rc)
    ensures EvalConditions([cond], rc) <==> EvalCondition(cond, rc)
  {
    assert forall c :: c in a + b <==> c in a || c in b;
    assert cond in [cond];
  }

  /** A condition as the SDK builds it. */
  datatype Test = OfBranch(name: string) | OfTag(pattern: string) | OfEvent(name: string)

  function Print(t: Test): string {
    match t
    case OfBranch(name) => OnBranch(name)
    case OfTag(pattern) => OnTag(pattern)
    case OfEvent(name) => OnEvent(name)
  }

  function Printed(ts: seq<Test>): seq<string> {
    if ts == [] then [] else Printed(ts[..|ts| - 1]) + [Print(ts[|ts| - 1])]
  }

  /** The branch and the event are the trimmed names, and the trimmed pattern globs the tag. */
  predicate Holds(t: Test, branch: string, tag: string, event: string) {
    match t
    case OfBranch(name) => branch == TrimSpace(name)
    case OfTag(pattern) => MatchGlob(TrimSpace(pattern), tag)
    case OfEvent(name) => event == TrimSpace(name)
  }

  lemma PrintMeans(t: Test, rc: RunContext)
    ensures EvalCondition(Print(t), rc) <==> Holds(t, rc.branch, rc.tag, rc.event)
  {
    match t
    case OfBranch(name) => PrintedConditionMeans(name, rc);
    case OfTag(pattern) => PrintedConditionMeans(pattern, rc);
    case OfEvent(name) => PrintedConditionMeans(name, rc);
  }

  /** A list of printed conditions passes exactly when every one of them holds. */
  lemma {:induction false} PrintedConditionsMean(ts: seq<Test>, rc: RunContext)
    ensures EvalConditions(Printed(ts), rc) <==> forall t :: t in ts ==> Holds(t, rc.branch, rc.tag, rc.event)
  {
    if ts == [] {
      ConditionsCompose([], [], "", rc);
    } else {
      var start, last := ts[..|ts| - 1], ts[|ts| - 1];
      PrintedConditionsMean(start, rc);
      ConditionsCompose(Printed(start), [Print(last)], Print(last), rc);
      PrintMeans(last, rc);
      SplitLast(ts);
    }
  }

  // ---------------------------------------------------------------------------
  // The glob against star matching
  // ---------------------------------------------------------------------------

  /** Standard matching: a star stands for any string. */
  predicate StarMatch(p: string, s: string) {
    if p == [] then s == []
    else if p[0] == '*' then StarMatch(p[1..], s) || (s != [] && StarMatch(p, s[1..]))
    else s != [] && s[0] == p[0] && StarMatch(p[1..], s[1..])
  }

  /** At most one star, and that one first or last. */
  predicate SimpleGlob(p: string) {
    p == [] || '*' !in p[1..] || '*' !in p[..|p| - 1]
  }

  lemma {:induction false} StarFreeMatch(p: string, s: string)
    requires '*' !in p
    ensures StarMatch(p, s) <==> p == s
  {
    if p != [] && s != [] && s[0] == p[0] {
      StarFreeMatch(p[1..], s[1..]);
      assert p == [p[0]] + p[1..] && s == [s[0]] + s[1..];
    }
  }

  lemma {:induction false} LoneStarMatches(s: string)
    ensures StarMatch("*", s)
  {
    if s != [] {
      LoneStarMatches(s[1..]);
    }
  }

  lemma {:induction false} TrailingStarMatch(q: string, s: string)
    requires '*' !in q
    ensures StarMatch(q + "*", s) <==> q <= s
  {
    if q == [] {
      assert q + "*" == "*";
      LoneStarMatches(s);
    } else {
      assert (q + "*")[1..] == q[1..] + "*";
      if s != [] && s[0] == q[0] {
        TrailingStarMatch(q[1..], s[1..]);
        assert q == [q[0]] + q[1..] && s == [s[0]] + s[1..];
      }
    }
  }

  lemma {:induction false} LeadingStarMatch(q: string, s: string)
    requires '*' !in q
    ensures StarMatch("*" + q, s) <==> HasSuffix(s, q)
  {
    assert ("*" + q)[1..] == q;
    StarFreeMatch(q, s);
    if s != [] {
      LeadingStarMatch(q, s[1..]);
      if |q| < |s| {
        assert s[|s| - |q|..] == s[1..][|s[1..]| - |q|..];
      }
    }
  }

  /** The pattern without its stars. */
  function Stripped(p: string): (s: string)
    ensures '*' !in s
  {
    if p == [] then [] else if p[0] == '*' then Stripped(p[1..]) else [p[0]] + Stripped(p[1..])
  }

  lemma {:induction false} StrippedMatches(p: string)
    ensures StarMatch(p, Stripped(p))
  {
    if p != [] {
      StrippedMatches(p[1..]);
    }
  }

  lemma SimpleGlobMatches(p: string, s: string)
    requires SimpleGlob(p)
    ensures MatchGlob(p, s) <==> StarMatch(p, s)
  {
    if p == "*" {
      LoneStarMatches(s);
    } else if HasSuffix(p, "*") {
      assert p == p[..|p| - 1] + "*" && p[|p| - 1] == p[1..][|p| - 2];
      TrailingStarMatch(p[..|p| - 1], s);
    } else if "*" <= p {
      assert p == "*" + p[1..] && p[..|p| - 1][0] == p[0];
      LeadingStarMatch(p[1..], s);
    } else {
      StarFreeMatch(p, s);
    }
  }

  /** The scheduler's glob is star matching on exactly the patterns with one star, first or last. */
  lemma GlobExact(p: string)
    ensures (forall s :: MatchGlob(p, s) <==> StarMatch(p, s)) <==> SimpleGlob(p)
  {
    if SimpleGlob(p) {
      forall s { SimpleGlobMatches(p, s); }
    } else {
      var s := Stripped(p);
      StrippedMatches(p);
      assert !MatchGlob(p, s);
    }
  }

  /** What the glob means for every pattern, the ones with more stars included. */
  lemma GlobMeans(p: string, s: string)
    ensures MatchGlob(p + "*", s) <==> p <= s
    ensures p == "" || p[|p| - 1] != '*' ==>
              (MatchGlob("*" + p, s) <==> |p| <= |s| && s[|s| - |p|..] == p)
    ensures p == "" || (p[0] != '*' && p[|p| - 1] != '*') ==> (MatchGlob(p, s) <==> p == s)
  {
    var t := p + "*";
    assert t[|t| - 1..] == "*" && t[..|t| - 1] == p;
    var u := "*" + p;
    assert u[1..] == p && (p != "" ==> u[|u| - 1] == p[|p| - 1]);
    if HasSuffix(u, "*") {
      assert u[|u| - 1] == '*';
    }
    if HasSuffix(p, "*") {
      assert p[|p| - 1..][0] == '*';
    }
  }
}
