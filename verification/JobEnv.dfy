/** The environment of a job: secrets injected into the dispatch, then merged with the specification. */
module JobEnv {
  import opened Messages

  /** A dispatched job; the environment is updated in place. */
  class JobDispatch {
    const spec: Option<JobSpec>
    var env: seq<EnvVar>

    constructor (spec: Option<JobSpec>, env: seq<EnvVar>)
      ensures this.spec == spec && this.env == env
    {
      this.spec, this.env := spec, env;
    }
  }

  /** What the backend answers for a secret, if it has it. */
  type Backend = string -> Option<string>

  /** The variables appended for the names up to the first the backend does not have. */
  function Resolved(names: seq<string>, backend: Backend): seq<EnvVar> {
    if names == [] || backend(names[0]) == None then []
    else [EnvVar(names[0], backend(names[0]).value)] + Resolved(names[1..], backend)
  }

  predicate AllKnown(names: seq<string>, backend: Backend) {
    forall n :: n in names ==> backend(n).Some?
  }

  function Names(d: JobDispatch): seq<string> {
    if d.spec == None then [] else d.spec.value.secrets
  }

  lemma ResolvedStep(env: seq<EnvVar>, names: seq<string>, i: nat, backend: Backend)
    requires i < |names| && backend(names[i]).Some?
    ensures env + Resolved(names[i..], backend) ==
            env + [EnvVar(names[i], backend(names[i]).value)] + Resolved(names[i + 1..], backend)
  {
    assert names[i..][1..] == names[i + 1..];
  }

  /** The values of the names before the first the backend does not have were appended, one each, in order. */
  predicate Injected(names: seq<string>, backend: Backend, before: seq<EnvVar>, after: seq<EnvVar>) {
    && |before| <= |after| <= |before| + |names| && after[..|before|] == before
    && (forall i :: |before| <= i < |after| ==>
          after[i].key == names[i - |before|] && backend(names[i - |before|]) == Some(after[i].value))
    && (|after| - |before| < |names| ==> backend(names[|after| - |before|]) == None)
  }

  lemma {:induction false} ResolvedInjects(names: seq<string>, backend: Backend)
    ensures Injected(names, backend, [], Resolved(names, backend))
  {
    if names != [] && backend(names[0]).Some? {
      ResolvedInjects(names[1..], backend);
    }
  }

  lemma InjectedBehind(names: seq<string>, backend: Backend, env: seq<EnvVar>, added: seq<EnvVar>)
    requires Injected(names, backend, [], added)
    ensures Injected(names, backend, env, env + added)
  {
  }

  /** Appends the secrets in order; stops at the first the backend does not have. */
  method InjectSecrets(d: JobDispatch, backend: Backend) returns (ok: bool)
    modifies d
    ensures d.env == old(d.env) + Resolved(Names(d), backend)
    ensures ok <==> AllKnown(Names(d), backend)
    ensures d.spec == None ==> d.env == old(d.env) && ok
    ensures d.spec.Some? ==> Injected(d.spec.value.secrets, backend, old(d.env), d.env)
  {
    if d.spec == None {
      return true;
    }
    var names := d.spec.value.secrets;
    ResolvedInjects(names, backend);
    InjectedBehind(names, backend, d.env, Resolved(names, backend));
    assert names[0..] == names;
    for i := 0 to |names|
      invariant d.env + Resolved(names[i..], backend) == old(d.env) + Resolved(names, backend)
      invariant AllKnown(names[..i], backend)
    {
      var val := backend(names[i]);
      assert names[i..][1..] == names[i + 1..];
      if val == None {
        return false;
      }
      assert names[..i + 1] == names[..i] + [names[i]];
      ResolvedStep(d.env, names, i, backend);
      d.env := d.env + [EnvVar(names[i], val.value)];
    }
    assert names[..|names|] == names && names[|names|..] == [];
    return true;
  }

  function Entry(e: EnvVar): string {
    e.key + "=" + e.value
  }

  function Keys(es: seq<EnvVar>): set<string> {
    set e | e in es :: e.key
  }

  /** The specification's variables whose keys are not taken, each key once, the first value winning. */
  function Untaken(es: seq<EnvVar>, taken: set<string>): seq<EnvVar> {
    if es == [] then []
    else if es[0].key in taken then Untaken(es[1..], taken)
    else [es[0]] + Untaken(es[1..], taken + {es[0].key})
  }

  function SpecEnv(d: JobDispatch): seq<EnvVar> {
    if d.spec == None then [] else d.spec.value.env
  }

  /** The variables the list stands for. */
  function Merged(env: seq<EnvVar>, spec: seq<EnvVar>): seq<EnvVar> {
    env + Untaken(spec, Keys(env))
  }

  function Entries(es: seq<EnvVar>): (r: seq<string>)
    ensures |r| == |es| && forall i :: 0 <= i < |r| ==> r[i] == Entry(es[i])
  {
    seq(|es|, i requires 0 <= i < |es| => Entry(es[i]))
  }

  lemma EntriesSnoc(es: seq<EnvVar>, e: EnvVar)
    ensures Entries(es + [e]) == Entries(es) + [Entry(e)]
    ensures Keys(es + [e]) == Keys(es) + {e.key}
  {
  }

  method BuildEnv(d: JobDispatch) returns (env: seq<string>)
    ensures env == Entries(Merged(d.env, SpecEnv(d)))
    ensures |d.env| <= |env| && forall i :: 0 <= i < |d.env| ==> env[i] == d.env[i].key + "=" + d.env[i].value
    ensures d.spec == None ==> |env| == |d.env|
    ensures d.spec.Some? ==> env == Entries(d.env + Untaken(d.spec.value.env, Keys(d.env)))
  {
    var seen: set<string> := {};
    env := [];
    for i := 0 to |d.env|
      invariant env == Entries(d.env[..i]) && seen == Keys(d.env[..i])
    {
      env := env + [Entry(d.env[i])];
      seen := seen + {d.env[i].key};
      TakeNext(d.env, i);
      EntriesSnoc(d.env[..i], d.env[i]);
    }
    TakeAll(d.env);
    if d.spec.Some? {
      var spec := d.spec.value.env;
      TakeAll(spec);
      ghost var done := d.env;
      for i := 0 to |spec|
        invariant env == Entries(done)
        invariant done + Untaken(spec[i..], seen) == Merged(d.env, spec)
      {
        assert spec[i..][1..] == spec[i + 1..];
        if spec[i].key !in seen {
          EntriesSnoc(done, spec[i]);
          Associative(done, [spec[i]], Untaken(spec[i + 1..], seen + {spec[i].key}));
          env := env + [Entry(spec[i])];
          seen := seen + {spec[i].key};
          done := done + [spec[i]];
        }
      }
      AppendEmpty(done);
    }
  }

  // ---------------------------------------------------------------------------
  // Precedence
  // ---------------------------------------------------------------------------

  /** The value the last variable with this key has. */
  function Last(es: seq<EnvVar>, key: string): Option<string> {
    if es == [] then None
    else if es[|es| - 1].key == key then Some(es[|es| - 1].value)
    else Last(es[..|es| - 1], key)
  }

  /** The value the first variable with this key has. */
  function First(es: seq<EnvVar>, key: string): Option<string> {
    if es == [] then None
    else if es[0].key == key then Some(es[0].value)
    else First(es[1..], key)
  }

  /** Reading the process environment: the last entry that starts with the key and an equals sign. */
  function Lookup(env: seq<string>, key: string): Option<string> {
    if env == [] then None
    else if key + "=" <= env[|env| - 1] then Some(env[|env| - 1][|key| + 1..])
    else Lookup(env[..|env| - 1], key)
  }

  /** The variable's key goes on after this key and an equals sign: its entry is read as one of this key. */
  predicate Shadows(e: EnvVar, key: string) {
    key + "=" <= e.key
  }

  /** What is read of a shadowing variable that no variable of the key itself stands behind. */
  function Shadow(es: seq<EnvVar>, key: string): Option<string> {
    if es == [] || es[|es| - 1].key == key then None
    else if Shadows(es[|es| - 1], key) then Some(Entry(es[|es| - 1])[|key| + 1..])
    else Shadow(es[..|es| - 1], key)
  }

  lemma EntryMatches(e: EnvVar, key: string)
    requires '=' !in key
    ensures key + "=" <= Entry(e) <==> e.key == key || Shadows(e, key)
    ensures e.key == key ==> Entry(e)[|key| + 1..] == e.value
  {
    var entry := Entry(e);
    if |key| < |e.key| {
      assert entry[..|key| + 1] == e.key[..|key| + 1];
    } else if |e.key| < |key| {
      assert entry[|e.key|] == '=' && (key + "=")[|e.key|] == key[|e.key|] && key[|e.key|] in key;
    } else {
      assert entry[..|key|] == e.key && (key + "=")[..|key|] == key;
      assert e.key == key ==> entry == key + "=" + e.value;
    }
  }

  lemma {:induction false} LookupIsLast(es: seq<EnvVar>, key: string)
    requires '=' !in key
    ensures Lookup(Entries(es), key) == if Shadow(es, key).Some? then Shadow(es, key) else Last(es, key)
  {
    if es != [] {
      EntryMatches(es[|es| - 1], key);
      LookupIsLast(es[..|es| - 1], key);
      assert Entries(es)[..|es| - 1] == Entries(es[..|es| - 1]);
    }
  }

  /** A variable of this key stands behind position `i`. */
  predicate Overridden(es: seq<EnvVar>, i: nat, key: string) {
    exists j :: i < j < |es| && es[j].key == key
  }

  lemma OverriddenLonger(es: seq<EnvVar>, e: EnvVar, i: nat, key: string)
    requires i < |es|
    ensures Overridden(es + [e], i, key) <==> e.key == key || Overridden(es, i, key)
  {
    var all := es + [e];
    assert all[|es|] == e;
    if Overridden(es, i, key) {
      var j :| i < j < |es| && es[j].key == key;
      assert all[j].key == key;
    }
  }

  /** Nothing is read of shadowing variables exactly if one of the key itself stands behind each. */
  lemma {:induction false} ShadowNone(es: seq<EnvVar>, key: string)
    ensures Shadow(es, key) == None <==>
            forall i :: 0 <= i < |es| && Shadows(es[i], key) ==> Overridden(es, i, key)
  {
    if es != [] {
      var start, e := es[..|es| - 1], es[|es| - 1];
      ShadowNone(start, key);
      SplitLast(es);
      forall i: nat | i < |start| { OverriddenLonger(start, e, i, key); }
      assert forall i :: 0 <= i < |start| ==> es[i] == start[i];
      assert e.key == key ==> !Shadows(e, key);
      assert !Overridden(es, |start|, key);
    }
  }

  lemma {:induction false} LastAppend(a: seq<EnvVar>, b: seq<EnvVar>, key: string)
    ensures Last(a + b, key) == if Last(b, key).Some? then Last(b, key) else Last(a, key)
  {
    if b == [] {
      assert a + b == a;
    } else {
      LastAppend(a, b[..|b| - 1], key);
      assert (a + b)[..|a + b| - 1] == a + b[..|b| - 1];
    }
  }

  lemma {:induction false} LastNone(es: seq<EnvVar>, key: string)
    ensures Last(es, key) == None <==> key !in Keys(es)
  {
    if es != [] {
      LastNone(es[..|es| - 1], key);
      assert es == es[..|es| - 1] + [es[|es| - 1]];
    }
  }

  /** Of the specification the first value of each untaken key is kept, once. */
  lemma {:induction false} UntakenFirst(es: seq<EnvVar>, taken: set<string>, key: string)
    ensures Last(Untaken(es, taken), key) == if key in taken then None else First(es, key)
    decreases |es|
  {
    if es != [] {
      if es[0].key in taken {
        UntakenFirst(es[1..], taken, key);
      } else {
        var rest := Untaken(es[1..], taken + {es[0].key});
        UntakenFirst(es[1..], taken + {es[0].key}, key);
        LastAppend([es[0]], rest, key);
        assert [es[0]][..0] == [];
      }
    }
  }

  lemma {:induction false} ResolvedValues(names: seq<string>, backend: Backend, key: string)
    requires AllKnown(names, backend)
    ensures Last(Resolved(names, backend), key) == if key in names then backend(key) else None
  {
    if names != [] {
      ResolvedValues(names[1..], backend, key);
      LastAppend([EnvVar(names[0], backend(names[0]).value)], Resolved(names[1..], backend), key);
      assert [EnvVar(names[0], backend(names[0]).value)][..0] == [];
      assert names == [names[0]] + names[1..];
    }
  }

  /** A secret has its backend value, any other dispatched key its last value there, the rest their first in the specification. */
  function Expected(env: seq<EnvVar>, names: seq<string>, backend: Backend, spec: seq<EnvVar>, key: string): Option<string> {
    if key in names then backend(key)
    else if Last(env, key).Some? then Last(env, key)
    else First(spec, key)
  }

  /**
   * After a successful injection every key reads as expected, unless a variable whose own key
   * contains an equals sign shadows it.
   */
  lemma Precedence(env: seq<EnvVar>, names: seq<string>, backend: Backend, spec: seq<EnvVar>, key: string)
    requires AllKnown(names, backend) && '=' !in key
    ensures var all := Merged(env + Resolved(names, backend), spec);
            Lookup(Entries(all), key) ==
            if Shadow(all, key).Some? then Shadow(all, key) else Expected(env, names, backend, spec, key)
  {
    var all := env + Resolved(names, backend);
    LookupIsLast(Merged(all, spec), key);
    LastAppend(all, Untaken(spec, Keys(all)), key);
    UntakenFirst(spec, Keys(all), key);
    LastNone(all, key);
    LastAppend(env, Resolved(names, backend), key);
    ResolvedValues(names, backend, key);
  }

  /** The dispatched variables come first, all of them; what follows is kept or dropped one variable at a time. */
  lemma {:induction false} UntakenSelects(a: seq<EnvVar>, b: seq<EnvVar>, e: EnvVar, taken: set<string>)
    ensures Untaken(a + b, taken) == Untaken(a, taken) + Untaken(b, taken + Keys(a))
    ensures Untaken([e], taken) == if e.key in taken then [] else [e]
    decreases |a|
  {
    assert [e][1..] == [];
    if a == [] {
      AppendEmpty(b);
      AppendEmpty(Untaken(b, taken));
      assert taken + Keys([]) == taken;
    } else {
      var now := taken + {a[0].key};
      assert (a + b)[1..] == a[1..] + b && a == [a[0]] + a[1..];
      assert Keys(a) == {a[0].key} + Keys(a[1..]);
      assert taken + Keys(a) == now + Keys(a[1..]);
      UntakenSelects(a[1..], b, e, now);
      if a[0].key in taken {
        assert now == taken;
      } else {
        Associative([a[0]], Untaken(a[1..], now), Untaken(b, now + Keys(a[1..])));
      }
    }
  }

  /** The specification adds no key twice, and none the dispatch already has. */
  lemma {:induction false} UntakenOnce(es: seq<EnvVar>, taken: set<string>)
    ensures forall i :: 0 <= i < |Untaken(es, taken)| ==> Untaken(es, taken)[i].key !in taken
    ensures forall i, j :: 0 <= i < j < |Untaken(es, taken)| ==> Untaken(es, taken)[i].key != Untaken(es, taken)[j].key
    decreases |es|
  {
    if es != [] {
      UntakenOnce(es[1..], if es[0].key in taken then taken else taken + {es[0].key});
    }
  }

  // ---------------------------------------------------------------------------
  // The process environment
  // ---------------------------------------------------------------------------

  /** What a command runs with: it inherits the process environment only if it is given no list. */
  function Effective(list: seq<string>, process: seq<string>): seq<string> {
    if list == [] then process else list
  }

  /** The list merged into the process environment, the list taking precedence. */
  function LookupMerged(list: seq<string>, process: seq<string>, key: string): Option<string> {
    if Lookup(list, key).Some? then Lookup(list, key) else Lookup(process, key)
  }

  ghost predicate MergesInto(list: seq<string>, process: seq<string>) {
    forall key :: '=' !in key ==> Lookup(Effective(list, process), key) == LookupMerged(list, process, key)
  }

  /** A key longer than every entry. */
  lemma {:induction false} FreshKey(list: seq<string>) returns (key: string)
    ensures '=' !in key && forall e :: e in list ==> |e| <= |key|
  {
    if list == [] {
      key := "";
    } else {
      var last := list[|list| - 1];
      key := FreshKey(list[..|list| - 1]);
      if |key| < |last| {
        key := seq(|last|, i => 'A');
      }
      SplitLast(list);
    }
  }

  lemma {:induction false} TooLong(list: seq<string>, key: string)
    requires forall e :: e in list ==> |e| <= |key|
    ensures Lookup(list, key) == None
  {
    if list != [] {
      TooLong(list[..|list| - 1], key);
      assert list[|list| - 1] in list;
    }
  }

  /** The list built amounts to a merge into the process environment only when it is empty. */
  lemma MergesIntoProcessIff(env: seq<EnvVar>, spec: seq<EnvVar>)
    ensures (forall process :: MergesInto(Entries(Merged(env, spec)), process)) <==> env == [] && spec == []
  {
    var list := Entries(Merged(env, spec));
    assert list == [] <==> env == [] && spec == [];
    if list != [] {
      var key := FreshKey(list);
      var process := [key + "=set"];
      TooLong(list, key);
      assert process[0] == key + "=" + "set";
      assert Lookup(process, key).Some? && !MergesInto(list, process);
    }
  }
}
