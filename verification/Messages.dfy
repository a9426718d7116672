/** The messages of proto/pipeline.proto as the master sees them after decoding. */
module Messages {

  datatype Option<+T> = None | Some(value: T)

  datatype Result<+T, +E> = Ok(value: T) | Err(error: E)

  datatype EnvVar = EnvVar(key: string, value: string)

  datatype JobSpec = JobSpec(
    commands: seq<string>,
    env: seq<EnvVar>,
    secrets: seq<string>,
    artifactPaths: seq<string>)

  datatype StageSpec = StageSpec(jobs: seq<Node>)

  /** The `oneof kind` of a node. */
  datatype Kind = Unset | Job(job: JobSpec) | Stage(stage: StageSpec)

  datatype Node = Node(
    id: string,
    dependsOn: seq<string>,
    conditions: seq<string>,
    kind: Kind)

  datatype WorkflowRef = WorkflowRef(name: string, version: string)

  datatype PipelineSpec = PipelineSpec(workflow: Option<WorkflowRef>, nodes: seq<Node>)

  datatype WorkflowDAG = WorkflowDAG(name: string, version: string, nodes: seq<Node>)

  /** The ids of a list of nodes, in order. */
  function Ids(nodes: seq<Node>): (ids: seq<string>)
    ensures |ids| == |nodes|
    ensures forall i :: 0 <= i < |nodes| ==> ids[i] == nodes[i].id
  {
    seq(|nodes|, i requires 0 <= i < |nodes| => nodes[i].id)
  }

  predicate Distinct<T(==)>(s: seq<T>) {
    forall i, j :: 0 <= i < j < |s| ==> s[i] != s[j]
  }

  function ToSet<T>(s: seq<T>): set<T> {
    set x | x in s
  }

  /** The last element of a list without repetitions. */
  lemma FrontOf<T>(s: seq<T>)
    requires Distinct(s) && s != []
    ensures Distinct(s[..|s| - 1]) && s[|s| - 1] in s && s[|s| - 1] !in s[..|s| - 1]
    ensures forall x :: x in s[..|s| - 1] ==> x in s
    ensures ToSet(s) == ToSet(s[..|s| - 1]) + {s[|s| - 1]}
  {
    SplitLast(s);
  }

  lemma Associative<T>(a: seq<T>, b: seq<T>, c: seq<T>)
    ensures (a + b) + c == a + (b + c)
  {
  }

  /** Taking apart a list that ends in a known element. */
  lemma Snoc<T>(s: seq<T>, x: T)
    ensures (s + [x])[..|s + [x]| - 1] == s && (s + [x])[|s + [x]| - 1] == x
  {
  }

  lemma DropPrefix<T>(a: seq<T>, b: seq<T>)
    ensures (a + b)[|a|..] == b && (a + b)[..|a|] == a
  {
  }

  /** An element moves through a list that ends in another one. */
  lemma Regroup<T>(a: seq<T>, x: T, b: seq<T>, y: T)
    ensures a + [x] + (b + [y]) == (a + [x] + b) + [y]
    ensures a + (b + [y]) == (a + b) + [y]
  {
  }

  lemma SplitLast<T>(s: seq<T>)
    requires s != []
    ensures s == s[..|s| - 1] + [s[|s| - 1]]
  {
  }

  lemma SplitAt<T>(s: seq<T>, i: nat)
    requires i < |s|
    ensures s == s[..i] + [s[i]] + s[i + 1..]
  {
  }

  lemma AppendEmpty<T>(s: seq<T>)
    ensures s + [] == s && [] + s == s
  {
  }

  lemma LastOfAppend<T>(a: seq<T>, b: seq<T>)
    requires b != []
    ensures (a + b)[..|a + b| - 1] == a + b[..|b| - 1] && (a + b)[|a + b| - 1] == b[|b| - 1]
  {
  }

  lemma TakeNext<T>(s: seq<T>, i: nat)
    requires i < |s|
    ensures s[..i + 1] == s[..i] + [s[i]] && s[..i + 1][..i] == s[..i]
  {
  }

  lemma TakeAll<T>(s: seq<T>)
    ensures s[..|s|] == s && s[0..] == s && s[|s|..] == []
  {
  }

  lemma Cut<T>(s: seq<T>, i: nat)
    requires i <= |s|
    ensures s[..i] + s[i..] == s
  {
  }
}
